/**
 * DoctrineMigrationsExtension::load and registerCollector: how the processed
 * `doctrine_migrations` configuration is written into the container.
 *
 * The container arrives with the definitions of the bundle's `services.xml` already
 * registered. `LoadSpec` gives the outcome of a load as a function of the configuration
 * and the container before it; `Load` performs it step by step on a ContainerBuilder and
 * is proved to reach that outcome.
 */
module Extension {
  import opened Wrappers
  import opened BundlePath
  import opened Container

  // Service ids and parameter names
  const ConfigurationId := "doctrine.migrations.configuration"
  const DependencyFactoryId := "doctrine.migrations.dependency_factory"
  const SchemaFilterListenerId := "doctrine_migrations.schema_filter_listener"
  const ContainerAwareFactoryId := "doctrine.migrations.container_aware_migrations_factory"
  const FlattenerId := "doctrine_migrations.migrations_flattener"
  const CollectorId := "doctrine_migrations.migrations_collector"
  const TableStorageId := "doctrine.migrations.storage.table_storage"
  const MetadataStorageAlias := "doctrine.migrations.metadata_storage"
  const DefaultMigrationFactoryId := "doctrine.migrations.migrations_factory"
  const PreferredEmParameter := "doctrine.migrations.preferred_em"
  const PreferredConnectionParameter := "doctrine.migrations.preferred_connection"
  const ConnectionsParameter := "doctrine.connections"
  const DefaultTableName := "doctrine_migration_versions"

  // Class names
  const MigrationFactoryClass := "Doctrine\\Migrations\\Version\\MigrationFactory"
  const MetadataStorageClass := "Doctrine\\Migrations\\Metadata\\Storage\\MetadataStorage"
  const TableStorageClass := "Doctrine\\Migrations\\Metadata\\Storage\\TableMetadataStorageConfiguration"
  const FlattenerClass := "Doctrine\\Bundle\\MigrationsBundle\\Collector\\MigrationsFlattener"
  const CollectorClass := "Doctrine\\Bundle\\MigrationsBundle\\Collector\\MigrationsCollector"

  // Tags
  const SchemaFilterTag := "doctrine.dbal.schema_filter"
  const DataCollectorTag := "data_collector"

  /** The ids a load touches are pairwise distinct. */
  lemma IdsDistinct()
    ensures |{ConfigurationId, DependencyFactoryId, SchemaFilterListenerId, ContainerAwareFactoryId,
              FlattenerId, CollectorId, TableStorageId}| == 7
    ensures ConfigurationId != DependencyFactoryId && ConfigurationId != SchemaFilterListenerId
    ensures ConfigurationId != ContainerAwareFactoryId && ConfigurationId != FlattenerId
    ensures ConfigurationId != CollectorId && ConfigurationId != TableStorageId
    ensures DependencyFactoryId != SchemaFilterListenerId && DependencyFactoryId != ContainerAwareFactoryId
    ensures DependencyFactoryId != FlattenerId && DependencyFactoryId != CollectorId
    ensures DependencyFactoryId != TableStorageId
    ensures SchemaFilterListenerId != ContainerAwareFactoryId && SchemaFilterListenerId != FlattenerId
    ensures SchemaFilterListenerId != CollectorId && SchemaFilterListenerId != TableStorageId
    ensures ContainerAwareFactoryId != FlattenerId && ContainerAwareFactoryId != CollectorId
    ensures ContainerAwareFactoryId != TableStorageId
    ensures FlattenerId != CollectorId && FlattenerId != TableStorageId && CollectorId != TableStorageId
    ensures PreferredEmParameter != PreferredConnectionParameter
    ensures MigrationFactoryClass != MetadataStorageClass
  {
  }

  /** The `storage.table_storage` options; `None` stands for an option left null. */
  datatype TableStorage = TableStorage(
    tableName: Option<string>,
    versionColumnName: Option<string>,
    versionColumnLength: Option<int>,
    executedAtColumnName: Option<string>,
    executionTimeColumnName: Option<string>)

  /**
   * The processed configuration. `organizeMigrations` is `None` where the
   * configuration holds `false`; ordered PHP arrays are sequences of entries.
   */
  datatype Config = Config(
    migrationsPaths: seq<Entry>,
    migrations: seq<string>,
    organizeMigrations: Option<string>,
    customTemplate: Option<string>,
    allOrNothing: bool,
    checkDatabasePlatform: bool,
    enableProfiler: bool,
    transactional: bool,
    services: seq<Entry>,
    factories: seq<Entry>,
    tableStorage: TableStorage,
    em: Option<string>,
    connection: Option<string>)

  datatype LoadError =
    /** A migrations path could not be resolved. */
    | PathFailed(error: PathError)
    /** The InvalidArgumentException for a configuration that sets both `em` and `connection`. */
    | EmAndConnectionBothSet

  const EmAndConnectionMessage := "You cannot specify both \"connection\" and \"em\" in the DoctrineMigrationsBundle configurations."

  /** The text of the exception a load ends with; that of Symfony's ParameterNotFoundException is not modelled. */
  function ExceptionMessage(e: LoadError): (m: Option<string>)
    ensures e.EmAndConnectionBothSet? ==>
              m == Some("You cannot specify both \"connection\" and \"em\" in the DoctrineMigrationsBundle configurations.")
    ensures e.PathFailed? && e.error.BundleNotRegistered? ==>
              && m.Some?
              && Occurs(e.error.bundle, m.value)
              && forall i :: 0 <= i < |e.error.available| ==> Occurs(e.error.available[i], m.value)
    ensures e.PathFailed? && e.error.ParameterNotFound? ==> m.None?
  {
    match e
    case EmAndConnectionBothSet => Some(EmAndConnectionMessage)
    case PathFailed(BundleNotRegistered(bundle, available)) =>
      MessageNamesEveryBundle(bundle, available);
      Some(NotRegisteredMessage(bundle, available))
    case PathFailed(ParameterNotFound(_)) => None
  }

  /** The container after a load, and the exception that ended it, if any. */
  datatype Outcome = Outcome(state: ContainerState, error: Option<LoadError>)

  /** The definitions of `services.xml` that `load` looks up. */
  predicate Preloaded(s: ContainerState) {
    && ConfigurationId in s.definitions
    && DependencyFactoryId in s.definitions
    && SchemaFilterListenerId in s.definitions
  }

  /** The two parameters read by the extension hold the arrays it expects. */
  predicate ParametersWellTyped(parameters: map<string, Param>) {
    && (BundlesMetadataParameter in parameters ==> parameters[BundlesMetadataParameter].BundleList?)
    && (ConnectionsParameter in parameters ==> parameters[ConnectionsParameter].Entries?)
  }

  function BundlesMetadata(parameters: map<string, Param>): Option<seq<Bundle>>
    requires ParametersWellTyped(parameters)
  {
    if BundlesMetadataParameter in parameters then Some(parameters[BundlesMetadataParameter].bundles) else None
  }

  /** `isset($entries[$key])` */
  predicate HasKey(entries: seq<Entry>, key: string) {
    exists k | 0 <= k < |entries| :: entries[k].key == key
  }

  /** `$entries[$key]`, from the first entry with that key. */
  function Lookup(entries: seq<Entry>, key: string): (r: Option<string>)
    ensures r.None? <==> !HasKey(entries, key)
    ensures r.Some? ==> Entry(key, r.value) in entries
  {
    if entries == [] then None
    else if entries[0].key == key then Some(entries[0].value)
    else
      var r := Lookup(entries[1..], key);
      assert HasKey(entries, key) ==> HasKey(entries[1..], key) by {
        if HasKey(entries, key) {
          var k :| 0 <= k < |entries| && entries[k].key == key;
          assert entries[1..][k - 1].key == key;
        }
      }
      assert HasKey(entries[1..], key) ==> HasKey(entries, key) by {
        if HasKey(entries[1..], key) {
          var k :| 0 <= k < |entries[1..]| && entries[1..][k].key == key;
          assert entries[k + 1].key == key;
        }
      }
      r
  }

  /** The index of the first entry with `key`, or the number of entries. */
  function FirstKeyed(entries: seq<Entry>, key: string): (k: nat)
    ensures k <= |entries|
  {
    if entries == [] || entries[0].key == key then 0 else 1 + FirstKeyed(entries[1..], key)
  }

  /** A lookup answers from the first entry with the key, as PHP's single entry per key would. */
  lemma {:induction false} LookupFirst(entries: seq<Entry>, key: string)
    requires Lookup(entries, key).Some?
    ensures var k := FirstKeyed(entries, key);
            k < |entries| && entries[k] == Entry(key, Lookup(entries, key).value)
            && forall j | 0 <= j < k :: entries[j].key != key
  {
    if entries[0].key != key {
      LookupFirst(entries[1..], key);
      forall j | 1 <= j <= FirstKeyed(entries[1..], key) ensures entries[j].key != key {
        assert entries[j] == entries[1..][j - 1];
      }
    }
  }

  // ---------------------------------------------------------------------------
  // The method calls, tags and definitions that a load adds
  // ---------------------------------------------------------------------------

  function DirectoryCall(namespace: string, path: string): MethodCall {
    MethodCall("addMigrationsDirectory", [Str(namespace), Str(path)])
  }

  /** The directory calls made before the first path that fails, and that path's error. */
  datatype Directories = Directories(calls: seq<MethodCall>, error: Option<PathError>)

  /**
   * One `addMigrationsDirectory(namespace, resolved path)` per `migrations_paths` entry,
   * in configuration order, stopping at the first path that cannot be resolved.
   */
  function DirectoryCalls(paths: seq<Entry>, metadata: Option<seq<Bundle>>): (r: Directories)
    ensures |r.calls| <= |paths|
    ensures r.error.None? <==> |r.calls| == |paths|
    ensures forall k :: 0 <= k < |r.calls| ==>
              && CheckIfBundleRelativePath(paths[k].value, metadata).Ok?
              && r.calls[k] == DirectoryCall(paths[k].key, CheckIfBundleRelativePath(paths[k].value, metadata).value)
    ensures r.error.Some? ==> CheckIfBundleRelativePath(paths[|r.calls|].value, metadata) == Err(r.error.value)
  {
    if paths == [] then Directories([], None)
    else
      var last := paths[|paths| - 1];
      var init := paths[..|paths| - 1];
      var prefix := DirectoryCalls(init, metadata);
      assert forall k :: 0 <= k < |init| ==> init[k] == paths[k];
      if prefix.error.Some? then prefix
      else
        match CheckIfBundleRelativePath(last.value, metadata)
        case Ok(path) => Directories(prefix.calls + [DirectoryCall(last.key, path)], None)
        case Err(e) => Directories(prefix.calls, Some(e))
  }

  function MigrationClassCall(migrationClass: string): MethodCall {
    MethodCall("addMigrationClass", [Str(migrationClass)])
  }

  /** One `addMigrationClass` per `migrations` entry, in configuration order. */
  function MigrationClassCalls(classes: seq<string>): (calls: seq<MethodCall>)
    ensures |calls| == |classes|
    ensures forall k :: 0 <= k < |classes| ==> calls[k] == MigrationClassCall(classes[k])
  {
    if classes == [] then []
    else MigrationClassCalls(classes[..|classes| - 1]) + [MigrationClassCall(classes[|classes| - 1])]
  }

  /** A setter that is called only for an option that is set. */
  function OptionalCall(name: string, arg: Option<Value>): seq<MethodCall> {
    match arg
    case None => []
    case Some(v) => [MethodCall(name, [v])]
  }

  function StrArg(o: Option<string>): Option<Value> {
    match o
    case None => None
    case Some(s) => Some(Str(s))
  }

  function IntArg(o: Option<int>): Option<Value> {
    match o
    case None => None
    case Some(n) => Some(Int(n))
  }

  /** The settings made on the configuration definition after the migration classes. */
  function SettingCalls(cfg: Config): (calls: seq<MethodCall>)
    ensures |calls| == 2 + (if cfg.organizeMigrations.Some? then 1 else 0) + (if cfg.customTemplate.Some? then 1 else 0)
    ensures forall c | c in calls :: |c.arguments| == 1
  {
    OptionalCall("setMigrationOrganization", StrArg(cfg.organizeMigrations))
    + OptionalCall("setCustomTemplate", StrArg(cfg.customTemplate))
    + [MethodCall("setAllOrNothing", [Bool(cfg.allOrNothing)]),
       MethodCall("setCheckDatabasePlatform", [Bool(cfg.checkDatabasePlatform)])]
  }

  function TransactionalCall(cfg: Config): MethodCall {
    MethodCall("setTransactional", [Bool(cfg.transactional)])
  }

  const MetadataStorageConfigurationCall := MethodCall("setMetadataStorageConfiguration", [Ref(TableStorageId)])

  /** `services` with the migration factory defaulted to the bundle's own service. */
  function WithDefaultMigrationFactory(services: seq<Entry>): (r: seq<Entry>)
    ensures HasKey(r, MigrationFactoryClass)
    ensures services <= r
    ensures HasKey(services, MigrationFactoryClass) ==> r == services
    ensures !HasKey(services, MigrationFactoryClass) ==> |r| == |services| + 1
    ensures Lookup(r, MigrationFactoryClass) ==
              if HasKey(services, MigrationFactoryClass) then Lookup(services, MigrationFactoryClass)
              else Some(DefaultMigrationFactoryId)
  {
    if HasKey(services, MigrationFactoryClass) then services
    else
      var r := services + [Entry(MigrationFactoryClass, DefaultMigrationFactoryId)];
      assert r[|services|].key == MigrationFactoryClass;
      LookupPastMissing(services, Entry(MigrationFactoryClass, DefaultMigrationFactoryId));
      r
  }

  lemma {:induction false} LookupPastMissing(entries: seq<Entry>, e: Entry)
    requires !HasKey(entries, e.key)
    ensures Lookup(entries + [e], e.key) == Some(e.value)
  {
    if entries != [] {
      assert (entries + [e])[1..] == entries[1..] + [e];
      assert entries[0].key != e.key;
      LookupPastMissing(entries[1..], e);
    }
  }

  function ServiceCall(e: Entry): MethodCall {
    MethodCall("setDefinition", [Str(e.key), ServiceClosure(e.value)])
  }

  /** One `setDefinition(doctrine id, closure over the service)` per `services` entry, in order. */
  function ServiceCalls(services: seq<Entry>): (calls: seq<MethodCall>)
    ensures |calls| == |services|
    ensures forall k :: 0 <= k < |services| ==> calls[k] == ServiceCall(services[k])
  {
    if services == [] then []
    else ServiceCalls(services[..|services| - 1]) + [ServiceCall(services[|services| - 1])]
  }

  function FactoryCall(e: Entry): MethodCall {
    MethodCall("setDefinition", [Str(e.key), Ref(e.value)])
  }

  /** One `setDefinition(doctrine id, reference to the factory)` per `factories` entry, in order. */
  function FactoryCalls(factories: seq<Entry>): (calls: seq<MethodCall>)
    ensures |calls| == |factories|
    ensures forall k :: 0 <= k < |factories| ==> calls[k] == FactoryCall(factories[k])
  {
    if factories == [] then []
    else FactoryCalls(factories[..|factories| - 1]) + [FactoryCall(factories[|factories| - 1])]
  }

  /** The table name handed to the schema filter listener. */
  function TableName(ts: TableStorage): string {
    match ts.tableName
    case None => DefaultTableName
    case Some(name) => name
  }

  /** The setters of the table storage definition, each only for an option that is set. */
  function StorageCalls(ts: TableStorage): (calls: seq<MethodCall>)
    ensures |calls| ==
              (if ts.tableName.Some? then 1 else 0)
              + (if ts.versionColumnName.Some? then 1 else 0)
              + (if ts.versionColumnLength.Some? then 1 else 0)
              + (if ts.executedAtColumnName.Some? then 1 else 0)
              + (if ts.executionTimeColumnName.Some? then 1 else 0)
    ensures forall c | c in calls :: |c.arguments| == 1
  {
    OptionalCall("setTableName", StrArg(ts.tableName))
    + OptionalCall("setVersionColumnName", StrArg(ts.versionColumnName))
    + OptionalCall("setVersionColumnLength", IntArg(ts.versionColumnLength))
    + OptionalCall("setExecutedAtColumnName", StrArg(ts.executedAtColumnName))
    + OptionalCall("setExecutionTimeColumnName", StrArg(ts.executionTimeColumnName))
  }

  function FilterTag(connection: string): Tag {
    Tag(SchemaFilterTag, [Entry("connection", connection)])
  }

  /** One schema-filter tag per connection name, in the order of `doctrine.connections`. */
  function FilterTags(connections: seq<Entry>): (tags: seq<Tag>)
    ensures |tags| == |connections|
    ensures forall k :: 0 <= k < |connections| ==> tags[k] == FilterTag(connections[k].key)
  {
    if connections == [] then []
    else FilterTags(connections[..|connections| - 1]) + [FilterTag(connections[|connections| - 1].key)]
  }

  /** The tags the listener receives: none when `doctrine.connections` is not a parameter. */
  function ConnectionTags(parameters: map<string, Param>): (tags: seq<Tag>)
    requires ParametersWellTyped(parameters)
    ensures ConnectionsParameter !in parameters ==> tags == []
    ensures ConnectionsParameter in parameters ==> |tags| == |parameters[ConnectionsParameter].entries|
    ensures forall t | t in tags :: t.name == SchemaFilterTag && |t.attributes| == 1
  {
    if ConnectionsParameter in parameters then FilterTags(parameters[ConnectionsParameter].entries) else []
  }

  const FlattenerDefinition := Definition(Some(FlattenerClass), [], [], [])

  const CollectorTag := Tag(DataCollectorTag, [
    Entry("template", "@DoctrineMigrations/Collector/migrations.html.twig"),
    Entry("id", "doctrine_migrations"),
    Entry("priority", "249")])

  const CollectorDefinition :=
    Definition(Some(CollectorClass), [Ref(DependencyFactoryId), Ref(FlattenerId)], [], [CollectorTag])

  const TableStorageDefinition := Definition(Some(TableStorageClass), [], [], [])

  /** registerCollector: the flattener and the tagged collector. */
  function WithCollector(s: ContainerState): (r: ContainerState)
    ensures r.aliases == s.aliases && r.parameters == s.parameters
    ensures FlattenerId in r.definitions && r.definitions[FlattenerId] == FlattenerDefinition
    ensures CollectorId in r.definitions && r.definitions[CollectorId] == CollectorDefinition
    ensures forall id | id != FlattenerId && id != CollectorId ::
              (id in r.definitions <==> id in s.definitions)
              && (id in s.definitions ==> r.definitions[id] == s.definitions[id])
  {
    IdsDistinct();
    s.SetDefinition(FlattenerId, FlattenerDefinition).SetDefinition(CollectorId, CollectorDefinition)
  }

  /** The table storage, its alias, and the listener's table name and connection tags. */
  function WithTableStorage(s: ContainerState, ts: TableStorage): (r: ContainerState)
    requires ConfigurationId in s.definitions && SchemaFilterListenerId in s.definitions
    requires ParametersWellTyped(s.parameters)
    ensures r.parameters == s.parameters
    ensures r.aliases == s.aliases[MetadataStorageAlias := TableStorageId]
  {
    s.SetDefinition(TableStorageId, TableStorageDefinition.(calls := StorageCalls(ts)))
     .SetAlias(MetadataStorageAlias, TableStorageId)
     .AddArgument(SchemaFilterListenerId, Str(TableName(ts)))
     .AddMethodCalls(ConfigurationId, [MetadataStorageConfigurationCall])
     .AddTags(SchemaFilterListenerId, ConnectionTags(s.parameters))
  }

  lemma WithTableStorageIds(s: ContainerState, ts: TableStorage, id: string)
    requires ConfigurationId in s.definitions && SchemaFilterListenerId in s.definitions
    requires ParametersWellTyped(s.parameters)
    ensures id in WithTableStorage(s, ts).definitions <==> id in s.definitions || id == TableStorageId
  {
  }

  /** The table storage definition holds the setters of the set options; the listener gets the table name and the tags. */
  lemma WithTableStorageDefinitions(s: ContainerState, ts: TableStorage)
    requires ConfigurationId in s.definitions && SchemaFilterListenerId in s.definitions
    requires ParametersWellTyped(s.parameters)
    ensures var r := WithTableStorage(s, ts);
            var listener := s.definitions[SchemaFilterListenerId];
            && r.definitions[TableStorageId] == TableStorageDefinition.(calls := StorageCalls(ts))
            && r.definitions[SchemaFilterListenerId]
               == listener.(arguments := listener.arguments + [Str(TableName(ts))],
                            tags := listener.tags + ConnectionTags(s.parameters))
  {
    IdsDistinct();
  }

  lemma WithTableStorageConfiguration(s: ContainerState, ts: TableStorage)
    requires ConfigurationId in s.definitions && SchemaFilterListenerId in s.definitions
    requires ParametersWellTyped(s.parameters)
    ensures WithTableStorage(s, ts).definitions[ConfigurationId] == s.definitions[ConfigurationId].(calls :=
              s.definitions[ConfigurationId].calls + [MetadataStorageConfigurationCall])
  {
    IdsDistinct();
  }

  lemma WithTableStorageFrame(s: ContainerState, ts: TableStorage, id: string)
    requires ConfigurationId in s.definitions && SchemaFilterListenerId in s.definitions
    requires ParametersWellTyped(s.parameters)
    requires id in s.definitions && id != ConfigurationId && id != SchemaFilterListenerId && id != TableStorageId
    ensures id in WithTableStorage(s, ts).definitions
    ensures WithTableStorage(s, ts).definitions[id] == s.definitions[id]
  {
  }

  /** The container part-way through the table storage branch, once `storageCalls` are made. */
  ghost function TableStorageSoFar(s: ContainerState, storageCalls: seq<MethodCall>, tableName: string): ContainerState
    requires SchemaFilterListenerId in s.definitions
  {
    s.SetDefinition(TableStorageId, TableStorageDefinition.(calls := storageCalls))
     .SetAlias(MetadataStorageAlias, TableStorageId)
     .AddArgument(SchemaFilterListenerId, Str(tableName))
  }

  lemma TableStorageSoFarAppend(s: ContainerState, storageCalls: seq<MethodCall>, tableName: string, more: seq<MethodCall>)
    requires SchemaFilterListenerId in s.definitions
    ensures TableStorageSoFar(s, storageCalls, tableName).AddMethodCalls(TableStorageId, more)
         == TableStorageSoFar(s, storageCalls + more, tableName)
  {
    IdsDistinct();
  }

  function ParamOf(o: Option<string>): Param {
    match o
    case None => NullParam
    case Some(s) => TextParam(s)
  }

  /** Lines 58-77: migration classes, settings, the profiler and the transactional flag. */
  function ConfigurationPhase(cfg: Config, s: ContainerState): (r: ContainerState)
    requires Preloaded(s)
    ensures Preloaded(r) && r.parameters == s.parameters && r.aliases == s.aliases
  {
    var s1 := s.AddMethodCalls(ConfigurationId, MigrationClassCalls(cfg.migrations) + SettingCalls(cfg));
    var s2 := if cfg.enableProfiler then WithCollector(s1) else s1;
    s2.AddMethodCalls(ConfigurationId, [TransactionalCall(cfg)])
  }

  /** The configuration phase adds the flattener and the collector when the profiler is on, and no other id. */
  lemma ConfigurationPhaseIds(cfg: Config, s: ContainerState, id: string)
    requires Preloaded(s)
    ensures id in ConfigurationPhase(cfg, s).definitions
            <==> id in s.definitions || (cfg.enableProfiler && (id == FlattenerId || id == CollectorId))
  {
  }

  /** The configuration definition gets the classes, the settings and setTransactional, in that order. */
  lemma ConfigurationPhaseCalls(cfg: Config, s: ContainerState)
    requires Preloaded(s)
    ensures ConfigurationPhase(cfg, s).definitions[ConfigurationId] == s.definitions[ConfigurationId].(calls :=
              s.definitions[ConfigurationId].calls + MigrationClassCalls(cfg.migrations) + SettingCalls(cfg)
              + [TransactionalCall(cfg)])
  {
    IdsDistinct();
    var s1 := s.AddMethodCalls(ConfigurationId, MigrationClassCalls(cfg.migrations) + SettingCalls(cfg));
    var s2 := if cfg.enableProfiler then WithCollector(s1) else s1;
    assert s2.definitions[ConfigurationId] == s1.definitions[ConfigurationId];
    AddMethodCallsTwice(s, ConfigurationId, MigrationClassCalls(cfg.migrations) + SettingCalls(cfg), [TransactionalCall(cfg)]);
  }

  /** With the profiler on, the flattener and the collector are (re)defined. */
  lemma ConfigurationPhaseProfiler(cfg: Config, s: ContainerState)
    requires Preloaded(s) && cfg.enableProfiler
    ensures ConfigurationPhase(cfg, s).definitions[FlattenerId] == FlattenerDefinition
    ensures ConfigurationPhase(cfg, s).definitions[CollectorId] == CollectorDefinition
  {
    IdsDistinct();
  }

  lemma ConfigurationPhaseFrame(cfg: Config, s: ContainerState, id: string)
    requires Preloaded(s)
    requires id in s.definitions && id != ConfigurationId
    requires cfg.enableProfiler ==> id != FlattenerId && id != CollectorId
    ensures ConfigurationPhase(cfg, s).definitions[id] == s.definitions[id]
  {
  }

  /** `services` with the default applied holds a MetadataStorage override exactly when `services` does. */
  lemma DefaultKeepsOverride(services: seq<Entry>)
    ensures HasKey(WithDefaultMigrationFactory(services), MetadataStorageClass) <==> HasKey(services, MetadataStorageClass)
  {
    var r := WithDefaultMigrationFactory(services);
    if HasKey(services, MetadataStorageClass) {
      var k :| 0 <= k < |services| && services[k].key == MetadataStorageClass;
      assert r[k] == services[k];
    }
  }

  /** Lines 79-136: the dependency factory, then the metadata storage. */
  function DependencyPhase(cfg: Config, s: ContainerState): (r: ContainerState)
    requires Preloaded(s) && ParametersWellTyped(s.parameters)
    ensures r.parameters == s.parameters
    ensures ConfigurationId in r.definitions && DependencyFactoryId in r.definitions
  {
    IdsDistinct();
    var services := WithDefaultMigrationFactory(cfg.services);
    var s1 := s.AddMethodCalls(DependencyFactoryId, ServiceCalls(services) + FactoryCalls(cfg.factories));
    if HasKey(services, MetadataStorageClass) then s1.RemoveDefinition(SchemaFilterListenerId)
    else WithTableStorage(s1, cfg.tableStorage)
  }

  /** The dependency phase adds the table storage, or removes the listener when MetadataStorage is overridden. */
  lemma DependencyPhaseIds(cfg: Config, s: ContainerState, id: string)
    requires Preloaded(s) && ParametersWellTyped(s.parameters)
    ensures HasKey(cfg.services, MetadataStorageClass) ==>
              (id in DependencyPhase(cfg, s).definitions <==> id in s.definitions && id != SchemaFilterListenerId)
    ensures !HasKey(cfg.services, MetadataStorageClass) ==>
              (id in DependencyPhase(cfg, s).definitions <==> id in s.definitions || id == TableStorageId)
  {
    DefaultKeepsOverride(cfg.services);
    var services := WithDefaultMigrationFactory(cfg.services);
    var s1 := s.AddMethodCalls(DependencyFactoryId, ServiceCalls(services) + FactoryCalls(cfg.factories));
    assert id in s1.definitions <==> id in s.definitions;
    if !HasKey(services, MetadataStorageClass) {
      WithTableStorageIds(s1, cfg.tableStorage, id);
    }
  }

  /** The metadata storage alias points at the table storage unless the service is overridden. */
  lemma DependencyPhaseAliases(cfg: Config, s: ContainerState)
    requires Preloaded(s) && ParametersWellTyped(s.parameters)
    ensures DependencyPhase(cfg, s).aliases
         == if HasKey(cfg.services, MetadataStorageClass) then s.aliases else s.aliases[MetadataStorageAlias := TableStorageId]
  {
    DefaultKeepsOverride(cfg.services);
  }

  /** The dependency factory gets the services' calls, then the factories'. */
  lemma DependencyPhaseFactory(cfg: Config, s: ContainerState)
    requires Preloaded(s) && ParametersWellTyped(s.parameters)
    ensures DependencyPhase(cfg, s).definitions[DependencyFactoryId]
         == s.definitions[DependencyFactoryId].(calls := s.definitions[DependencyFactoryId].calls
              + ServiceCalls(WithDefaultMigrationFactory(cfg.services)) + FactoryCalls(cfg.factories))
  {
    IdsDistinct();
    var services := WithDefaultMigrationFactory(cfg.services);
    var s1 := s.AddMethodCalls(DependencyFactoryId, ServiceCalls(services) + FactoryCalls(cfg.factories));
    assert s1.definitions[DependencyFactoryId] == s.definitions[DependencyFactoryId].(calls :=
             s.definitions[DependencyFactoryId].calls + ServiceCalls(services) + FactoryCalls(cfg.factories));
    if !HasKey(services, MetadataStorageClass) {
      WithTableStorageFrame(s1, cfg.tableStorage, DependencyFactoryId);
    } else {
      assert DependencyPhase(cfg, s) == s1.RemoveDefinition(SchemaFilterListenerId);
    }
  }

  /** The configuration gets setMetadataStorageConfiguration exactly when there is no MetadataStorage override. */
  lemma DependencyPhaseConfiguration(cfg: Config, s: ContainerState)
    requires Preloaded(s) && ParametersWellTyped(s.parameters)
    ensures DependencyPhase(cfg, s).definitions[ConfigurationId]
         == s.definitions[ConfigurationId].(calls := s.definitions[ConfigurationId].calls
              + (if HasKey(cfg.services, MetadataStorageClass) then [] else [MetadataStorageConfigurationCall]))
  {
    IdsDistinct();
    DefaultKeepsOverride(cfg.services);
    var services := WithDefaultMigrationFactory(cfg.services);
    var s1 := s.AddMethodCalls(DependencyFactoryId, ServiceCalls(services) + FactoryCalls(cfg.factories));
    assert s1.definitions[ConfigurationId] == s.definitions[ConfigurationId];
    if HasKey(services, MetadataStorageClass) {
      assert s.definitions[ConfigurationId].calls + [] == s.definitions[ConfigurationId].calls;
    } else {
      WithTableStorageConfiguration(s1, cfg.tableStorage);
    }
  }

  /** Without a MetadataStorage override: the table storage and the listener after the dependency phase. */
  lemma DependencyPhaseTableStorage(cfg: Config, s: ContainerState)
    requires Preloaded(s) && ParametersWellTyped(s.parameters)
    requires !HasKey(cfg.services, MetadataStorageClass)
    ensures var r := DependencyPhase(cfg, s);
            var listener := s.definitions[SchemaFilterListenerId];
            && r.definitions[TableStorageId] == TableStorageDefinition.(calls := StorageCalls(cfg.tableStorage))
            && r.definitions[SchemaFilterListenerId]
               == listener.(arguments := listener.arguments + [Str(TableName(cfg.tableStorage))],
                            tags := listener.tags + ConnectionTags(s.parameters))
  {
    IdsDistinct();
    DefaultKeepsOverride(cfg.services);
    var services := WithDefaultMigrationFactory(cfg.services);
    var s1 := s.AddMethodCalls(DependencyFactoryId, ServiceCalls(services) + FactoryCalls(cfg.factories));
    assert s1.definitions[SchemaFilterListenerId] == s.definitions[SchemaFilterListenerId];
    WithTableStorageDefinitions(s1, cfg.tableStorage);
  }

  /** Every other definition passes through the dependency phase unchanged. */
  lemma DependencyPhaseFrame(cfg: Config, s: ContainerState, id: string)
    requires Preloaded(s) && ParametersWellTyped(s.parameters)
    requires id in s.definitions && id != ConfigurationId && id != DependencyFactoryId
    requires id != SchemaFilterListenerId && id != TableStorageId
    ensures id in DependencyPhase(cfg, s).definitions
    ensures DependencyPhase(cfg, s).definitions[id] == s.definitions[id]
  {
    var services := WithDefaultMigrationFactory(cfg.services);
    var s1 := s.AddMethodCalls(DependencyFactoryId, ServiceCalls(services) + FactoryCalls(cfg.factories));
    assert id in s1.definitions && s1.definitions[id] == s.definitions[id];
    if !HasKey(services, MetadataStorageClass) {
      WithTableStorageFrame(s1, cfg.tableStorage, id);
    }
  }

  /** Lines 138-151: the em/connection check, the two parameters, the container-aware factory. */
  function ParameterPhase(cfg: Config, s: ContainerState, containerAwareInterfaceExists: bool): (r: Outcome)
    ensures r.error.Some? <==> cfg.em.Some? && cfg.connection.Some?
    ensures r.error.Some? ==> r.error == Some(EmAndConnectionBothSet) && r.state == s
    ensures r.error.None? ==>
              && r.state.aliases == s.aliases
              && r.state.parameters == s.parameters[PreferredEmParameter := ParamOf(cfg.em)]
                                                   [PreferredConnectionParameter := ParamOf(cfg.connection)]
              && r.state.definitions == if containerAwareInterfaceExists then s.definitions
                                        else s.definitions - {ContainerAwareFactoryId}
  {
    if cfg.em.Some? && cfg.connection.Some? then Outcome(s, Some(EmAndConnectionBothSet))
    else
      var s1 := s.SetParameter(PreferredEmParameter, ParamOf(cfg.em))
                 .SetParameter(PreferredConnectionParameter, ParamOf(cfg.connection));
      if containerAwareInterfaceExists then Outcome(s1, None)
      else Outcome(s1.RemoveDefinition(ContainerAwareFactoryId), None)
  }

  /** The outcome of `load` for a configuration, a container and the presence of ContainerAwareInterface. */
  function LoadSpec(cfg: Config, s: ContainerState, containerAwareInterfaceExists: bool): (r: Outcome)
    requires Preloaded(s) && ParametersWellTyped(s.parameters)
    ensures r.error == Some(EmAndConnectionBothSet) ==> cfg.em.Some? && cfg.connection.Some?
    ensures r.error.Some? && r.error.value.PathFailed? ==>
              DirectoryCalls(cfg.migrationsPaths, BundlesMetadata(s.parameters)).error == Some(r.error.value.error)
    ensures ConfigurationId in r.state.definitions && DependencyFactoryId in r.state.definitions
  {
    IdsDistinct();
    var dirs := DirectoryCalls(cfg.migrationsPaths, BundlesMetadata(s.parameters));
    var s1 := s.AddMethodCalls(ConfigurationId, dirs.calls);
    if dirs.error.Some? then Outcome(s1, Some(PathFailed(dirs.error.value)))
    else ParameterPhase(cfg, DependencyPhase(cfg, ConfigurationPhase(cfg, s1)), containerAwareInterfaceExists)
  }

  // ---------------------------------------------------------------------------
  // The extension's methods
  // ---------------------------------------------------------------------------

  method RegisterCollector(container: ContainerBuilder)
    modifies container
    ensures container.State() == WithCollector(old(container.State()))
  {
    IdsDistinct();
    container.SetDefinition(FlattenerId, FlattenerDefinition);
    var collector := Definition(Some(CollectorClass), [Ref(DependencyFactoryId), Ref(FlattenerId)], [], []);
    collector := collector.(tags := collector.tags + [CollectorTag]);
    assert collector == CollectorDefinition;
    container.SetDefinition(CollectorId, collector);
  }

  /** Once a prefix of the paths fails, the later paths add nothing. */
  lemma {:induction false} DirectoryCallsStopAtError(paths: seq<Entry>, i: nat, metadata: Option<seq<Bundle>>)
    requires i <= |paths|
    requires DirectoryCalls(paths[..i], metadata).error.Some?
    ensures DirectoryCalls(paths, metadata) == DirectoryCalls(paths[..i], metadata)
  {
    if i == |paths| {
      assert paths[..i] == paths;
    } else {
      var init := paths[..|paths| - 1];
      assert init[..i] == paths[..i];
      DirectoryCallsStopAtError(init, i, metadata);
    }
  }

  /** One more path: its resolved directory call is appended, or its error ends the calls. */
  lemma DirectoryCallsStep(paths: seq<Entry>, i: nat, metadata: Option<seq<Bundle>>)
    requires i < |paths|
    requires DirectoryCalls(paths[..i], metadata).error.None?
    ensures var prefix := DirectoryCalls(paths[..i], metadata).calls;
            DirectoryCalls(paths[..i + 1], metadata)
            == match CheckIfBundleRelativePath(paths[i].value, metadata)
               case Ok(path) => Directories(prefix + [DirectoryCall(paths[i].key, path)], None)
               case Err(e) => Directories(prefix, Some(e))
  {
    assert paths[..i + 1][..i] == paths[..i];
  }

  /** Lines 53-56: one addMigrationsDirectory per configured path, until a path fails to resolve. */
  method AddMigrationsDirectories(container: ContainerBuilder, paths: seq<Entry>, metadata: Option<seq<Bundle>>)
    returns (error: Option<PathError>)
    requires ConfigurationId in container.definitions
    modifies container
    ensures error == DirectoryCalls(paths, metadata).error
    ensures container.State() == old(container.State()).AddMethodCalls(ConfigurationId, DirectoryCalls(paths, metadata).calls)
  {
    ghost var s0 := container.State();
    AddNoCalls(s0, ConfigurationId);
    var i := 0;
    while i < |paths|
      invariant i <= |paths|
      invariant DirectoryCalls(paths[..i], metadata).error.None?
      invariant container.State() == s0.AddMethodCalls(ConfigurationId, DirectoryCalls(paths[..i], metadata).calls)
    {
      DirectoryCallsStep(paths, i, metadata);
      var resolved := CheckIfBundleRelativePath(paths[i].value, metadata);
      if resolved.Err? {
        DirectoryCallsStopAtError(paths, i + 1, metadata);
        return Some(resolved.error);
      }
      var call := DirectoryCall(paths[i].key, resolved.value);
      AddMethodCallsTwice(s0, ConfigurationId, DirectoryCalls(paths[..i], metadata).calls, [call]);
      container.AddMethodCall(ConfigurationId, call);
      i := i + 1;
    }
    assert paths[..i] == paths;
    return None;
  }

  /** Lines 58-60: one addMigrationClass per configured class. */
  method AddMigrationClasses(container: ContainerBuilder, classes: seq<string>)
    requires ConfigurationId in container.definitions
    modifies container
    ensures container.State() == old(container.State()).AddMethodCalls(ConfigurationId, MigrationClassCalls(classes))
  {
    ghost var s0 := container.State();
    AddNoCalls(s0, ConfigurationId);
    var j := 0;
    while j < |classes|
      invariant j <= |classes|
      invariant container.State() == s0.AddMethodCalls(ConfigurationId, MigrationClassCalls(classes[..j]))
    {
      assert classes[..j + 1][..j] == classes[..j];
      AddMethodCallsTwice(s0, ConfigurationId, MigrationClassCalls(classes[..j]), [MigrationClassCall(classes[j])]);
      container.AddMethodCall(ConfigurationId, MigrationClassCall(classes[j]));
      j := j + 1;
    }
    assert classes[..j] == classes;
  }

  /** Lines 85-91: the dependency factory's setDefinition calls, services first, then factories. */
  method SetDependencyFactoryDefinitions(container: ContainerBuilder, services: seq<Entry>, factories: seq<Entry>)
    requires DependencyFactoryId in container.definitions
    modifies container
    ensures container.State()
         == old(container.State()).AddMethodCalls(DependencyFactoryId, ServiceCalls(services) + FactoryCalls(factories))
  {
    ghost var s0 := container.State();
    AddNoCalls(s0, DependencyFactoryId);
    var k := 0;
    while k < |services|
      invariant k <= |services|
      invariant container.State() == s0.AddMethodCalls(DependencyFactoryId, ServiceCalls(services[..k]))
    {
      assert services[..k + 1][..k] == services[..k];
      AddMethodCallsTwice(s0, DependencyFactoryId, ServiceCalls(services[..k]), [ServiceCall(services[k])]);
      container.AddMethodCall(DependencyFactoryId, ServiceCall(services[k]));
      k := k + 1;
    }
    assert services[..k] == services;
    ghost var s1 := container.State();
    AddNoCalls(s1, DependencyFactoryId);
    var m := 0;
    while m < |factories|
      invariant m <= |factories|
      invariant container.State() == s1.AddMethodCalls(DependencyFactoryId, FactoryCalls(factories[..m]))
    {
      assert factories[..m + 1][..m] == factories[..m];
      AddMethodCallsTwice(s1, DependencyFactoryId, FactoryCalls(factories[..m]), [FactoryCall(factories[m])]);
      container.AddMethodCall(DependencyFactoryId, FactoryCall(factories[m]));
      m := m + 1;
    }
    assert factories[..m] == factories;
    AddMethodCallsTwice(s0, DependencyFactoryId, ServiceCalls(services), FactoryCalls(factories));
  }

  method Load(cfg: Config, container: ContainerBuilder, containerAwareInterfaceExists: bool) returns (error: Option<LoadError>)
    requires Preloaded(container.State()) && ParametersWellTyped(container.parameters)
    modifies container
    ensures Outcome(container.State(), error) == LoadSpec(cfg, old(container.State()), containerAwareInterfaceExists)
  {
    IdsDistinct();
    var metadata := BundlesMetadata(container.parameters);
    var pathError := AddMigrationsDirectories(container, cfg.migrationsPaths, metadata);
    if pathError.Some? {
      return Some(PathFailed(pathError.value));
    }
    ghost var s1 := container.State();
    ApplyConfigurationPhase(container, cfg);
    ApplyDependencyPhase(container, cfg);
    ghost var s3 := container.State();
    assert s3 == DependencyPhase(cfg, ConfigurationPhase(cfg, s1));

    if cfg.em.Some? && cfg.connection.Some? {
      return Some(EmAndConnectionBothSet);
    }
    container.SetParameter(PreferredEmParameter, ParamOf(cfg.em));
    container.SetParameter(PreferredConnectionParameter, ParamOf(cfg.connection));

    if containerAwareInterfaceExists {
      return None;
    }
    container.RemoveDefinition(ContainerAwareFactoryId);
    return None;
  }

  /** Lines 58-77 of `load`. */
  method ApplyConfigurationPhase(container: ContainerBuilder, cfg: Config)
    requires Preloaded(container.State())
    modifies container
    ensures container.State() == ConfigurationPhase(cfg, old(container.State()))
  {
    IdsDistinct();
    ghost var s1 := container.State();
    AddMigrationClasses(container, cfg.migrations);
    ApplySettings(container, cfg);
    AddMethodCallsTwice(s1, ConfigurationId, MigrationClassCalls(cfg.migrations), SettingCalls(cfg));
    if cfg.enableProfiler {
      RegisterCollector(container);
    }
    container.AddMethodCall(ConfigurationId, TransactionalCall(cfg));
  }

  /** Lines 62-71: the organization and template setters when set, then setAllOrNothing and setCheckDatabasePlatform. */
  method ApplySettings(container: ContainerBuilder, cfg: Config)
    requires ConfigurationId in container.definitions
    modifies container
    ensures container.State() == old(container.State()).AddMethodCalls(ConfigurationId, SettingCalls(cfg))
  {
    ghost var s1 := container.State();
    ghost var b := OptionalCall("setMigrationOrganization", StrArg(cfg.organizeMigrations));
    ghost var c := OptionalCall("setCustomTemplate", StrArg(cfg.customTemplate));
    ghost var d := [MethodCall("setAllOrNothing", [Bool(cfg.allOrNothing)])];
    ghost var e := [MethodCall("setCheckDatabasePlatform", [Bool(cfg.checkDatabasePlatform)])];
    AddMethodCallIfSet(container, ConfigurationId, "setMigrationOrganization", StrArg(cfg.organizeMigrations));
    AddMethodCallIfSet(container, ConfigurationId, "setCustomTemplate", StrArg(cfg.customTemplate));
    AddMethodCallsTwice(s1, ConfigurationId, b, c);
    container.AddMethodCall(ConfigurationId, MethodCall("setAllOrNothing", [Bool(cfg.allOrNothing)]));
    AddMethodCallsTwice(s1, ConfigurationId, b + c, d);
    container.AddMethodCall(ConfigurationId, MethodCall("setCheckDatabasePlatform", [Bool(cfg.checkDatabasePlatform)]));
    AddMethodCallsTwice(s1, ConfigurationId, b + c + d, e);
    assert b + c + d + e == SettingCalls(cfg);
  }

  /** Lines 79-136 of `load`. */
  method ApplyDependencyPhase(container: ContainerBuilder, cfg: Config)
    requires Preloaded(container.State()) && ParametersWellTyped(container.parameters)
    modifies container
    ensures container.State() == DependencyPhase(cfg, old(container.State()))
  {
    IdsDistinct();
    var services := cfg.services;
    if !HasKey(services, MigrationFactoryClass) {
      services := services + [Entry(MigrationFactoryClass, DefaultMigrationFactoryId)];
    }
    assert services == WithDefaultMigrationFactory(cfg.services);
    SetDependencyFactoryDefinitions(container, services, cfg.factories);

    if HasKey(services, MetadataStorageClass) {
      container.RemoveDefinition(SchemaFilterListenerId);
    } else {
      ConfigureTableStorage(container, cfg.tableStorage);
    }
  }

  /** A setter that `load` calls only for an option that is set (lines 62-67, 110-123). */
  method AddMethodCallIfSet(container: ContainerBuilder, id: string, name: string, arg: Option<Value>)
    requires id in container.definitions
    modifies container
    ensures container.State() == old(container.State()).AddMethodCalls(id, OptionalCall(name, arg))
  {
    if arg.Some? {
      container.AddMethodCall(id, MethodCall(name, [arg.value]));
    } else {
      AddNoCalls(container.State(), id);
    }
  }

  /** Lines 96-135: the table storage branch of `load`. */
  method ConfigureTableStorage(container: ContainerBuilder, ts: TableStorage)
    requires ConfigurationId in container.definitions && SchemaFilterListenerId in container.definitions
    requires ParametersWellTyped(container.parameters)
    modifies container
    ensures container.State() == WithTableStorage(old(container.State()), ts)
  {
    ghost var s0 := container.State();
    DefineTableStorage(container, ts);
    container.AddMethodCall(ConfigurationId, MetadataStorageConfigurationCall);
    TagSchemaFilterListener(container);
    assert TableStorageSoFar(s0, StorageCalls(ts), TableName(ts)).AddMethodCalls(ConfigurationId, [MetadataStorageConfigurationCall])
                                                                  .AddTags(SchemaFilterListenerId, ConnectionTags(s0.parameters))
        == WithTableStorage(s0, ts);
  }

  /** Lines 99-123: the table storage definition, its alias, its setters and the listener's table name. */
  method DefineTableStorage(container: ContainerBuilder, ts: TableStorage)
    requires SchemaFilterListenerId in container.definitions
    modifies container
    ensures container.State() == TableStorageSoFar(old(container.State()), StorageCalls(ts), TableName(ts))
  {
    IdsDistinct();
    ghost var s0 := container.State();
    container.SetDefinition(TableStorageId, TableStorageDefinition);
    container.SetAlias(MetadataStorageAlias, TableStorageId);
    ghost var nameCalls := OptionalCall("setTableName", StrArg(ts.tableName));
    if ts.tableName.None? {
      container.AddArgument(SchemaFilterListenerId, Str(DefaultTableName));
      assert TableStorageDefinition.(calls := nameCalls) == TableStorageDefinition;
    } else {
      container.AddMethodCall(TableStorageId, MethodCall("setTableName", [Str(ts.tableName.value)]));
      container.AddArgument(SchemaFilterListenerId, Str(ts.tableName.value));
      assert TableStorageDefinition.calls + nameCalls == nameCalls;
    }
    assert container.State() == TableStorageSoFar(s0, nameCalls, TableName(ts));
    AddColumnSetters(container, ts, s0, nameCalls);
  }

  /** Lines 110-123: the column setters, each only for an option that is set. */
  method AddColumnSetters(container: ContainerBuilder, ts: TableStorage, ghost s0: ContainerState, ghost nameCalls: seq<MethodCall>)
    requires SchemaFilterListenerId in s0.definitions
    requires nameCalls == OptionalCall("setTableName", StrArg(ts.tableName))
    requires container.State() == TableStorageSoFar(s0, nameCalls, TableName(ts))
    modifies container
    ensures container.State() == TableStorageSoFar(s0, StorageCalls(ts), TableName(ts))
  {
    ghost var c1 := OptionalCall("setVersionColumnName", StrArg(ts.versionColumnName));
    ghost var c2 := OptionalCall("setVersionColumnLength", IntArg(ts.versionColumnLength));
    ghost var c3 := OptionalCall("setExecutedAtColumnName", StrArg(ts.executedAtColumnName));
    ghost var c4 := OptionalCall("setExecutionTimeColumnName", StrArg(ts.executionTimeColumnName));
    AddMethodCallIfSet(container, TableStorageId, "setVersionColumnName", StrArg(ts.versionColumnName));
    TableStorageSoFarAppend(s0, nameCalls, TableName(ts), c1);
    AddMethodCallIfSet(container, TableStorageId, "setVersionColumnLength", IntArg(ts.versionColumnLength));
    TableStorageSoFarAppend(s0, nameCalls + c1, TableName(ts), c2);
    AddMethodCallIfSet(container, TableStorageId, "setExecutedAtColumnName", StrArg(ts.executedAtColumnName));
    TableStorageSoFarAppend(s0, nameCalls + c1 + c2, TableName(ts), c3);
    AddMethodCallIfSet(container, TableStorageId, "setExecutionTimeColumnName", StrArg(ts.executionTimeColumnName));
    TableStorageSoFarAppend(s0, nameCalls + c1 + c2 + c3, TableName(ts), c4);
    assert nameCalls + c1 + c2 + c3 + c4 == StorageCalls(ts);
  }

  /** Lines 129-135: one schema-filter tag on the listener per key of `doctrine.connections`. */
  method TagSchemaFilterListener(container: ContainerBuilder)
    requires SchemaFilterListenerId in container.definitions
    requires ParametersWellTyped(container.parameters)
    modifies container
    ensures container.State() == old(container.State()).AddTags(SchemaFilterListenerId, ConnectionTags(old(container.parameters)))
  {
    var hasConnections := container.HasParameter(ConnectionsParameter);
    ghost var before := container.State();
    AddNoTags(before, SchemaFilterListenerId);
    if hasConnections {
      var connections := container.GetParameter(ConnectionsParameter);
      var names := connections.entries;
      var n := 0;
      while n < |names|
        invariant n <= |names|
        invariant container.State() == before.AddTags(SchemaFilterListenerId, FilterTags(names[..n]))
      {
        assert names[..n + 1][..n] == names[..n];
        AddTagsTwice(before, SchemaFilterListenerId, FilterTags(names[..n]), [FilterTag(names[n].key)]);
        container.AddTag(SchemaFilterListenerId, FilterTag(names[n].key));
        n := n + 1;
      }
      assert names[..n] == names;
    }
  }
}
