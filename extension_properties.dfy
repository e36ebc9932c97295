/**
 * What a load promises, stated over LoadSpec (the outcome that Extension.Load is
 * proved to reach). Unless said otherwise, each lemma is about a load whose
 * migrations paths all resolve; PathFailureStopsLoad covers the others.
 */
module ExtensionProperties {
  import opened Wrappers
  import opened BundlePath
  import opened Container
  import opened Extension

  /** Every migrations path of `cfg` resolves against the container's bundles. */
  predicate PathsResolve(cfg: Config, s: ContainerState)
    requires ParametersWellTyped(s.parameters)
  {
    DirectoryCalls(cfg.migrationsPaths, BundlesMetadata(s.parameters)).error.None?
  }

  /** `services` configures its own MetadataStorage. */
  predicate OverridesMetadataStorage(cfg: Config) {
    HasKey(cfg.services, MetadataStorageClass)
  }

  /** The container once the directories are added to the configuration definition. */
  function AfterDirectories(cfg: Config, s: ContainerState): (r: ContainerState)
    requires Preloaded(s) && ParametersWellTyped(s.parameters)
    ensures Preloaded(r) && r.parameters == s.parameters && r.aliases == s.aliases
    ensures r.definitions.Keys == s.definitions.Keys
    ensures forall id | id in s.definitions && id != ConfigurationId :: r.definitions[id] == s.definitions[id]
  {
    s.AddMethodCalls(ConfigurationId, DirectoryCalls(cfg.migrationsPaths, BundlesMetadata(s.parameters)).calls)
  }

  /** A load whose paths resolve runs the three phases one after the other. */
  lemma LoadStages(cfg: Config, s: ContainerState, containerAwareInterfaceExists: bool)
    requires Preloaded(s) && ParametersWellTyped(s.parameters)
    requires PathsResolve(cfg, s)
    ensures var s2 := ConfigurationPhase(cfg, AfterDirectories(cfg, s));
            && ParametersWellTyped(s2.parameters)
            && LoadSpec(cfg, s, containerAwareInterfaceExists)
               == ParameterPhase(cfg, DependencyPhase(cfg, s2), containerAwareInterfaceExists)
  {
  }

  /** A load whose paths do not all resolve stops once the directories before the failing one are added. */
  lemma FailedLoadState(cfg: Config, s: ContainerState, containerAwareInterfaceExists: bool)
    requires Preloaded(s) && ParametersWellTyped(s.parameters)
    requires !PathsResolve(cfg, s)
    ensures LoadSpec(cfg, s, containerAwareInterfaceExists).state == AfterDirectories(cfg, s)
  {
  }

  /**
   * A path that fails to resolve ends the load with that path's error; the directories
   * before it have been added to the configuration definition and nothing else has changed.
   */
  lemma PathFailureStopsLoad(cfg: Config, s: ContainerState, containerAwareInterfaceExists: bool)
    requires Preloaded(s) && ParametersWellTyped(s.parameters)
    requires !PathsResolve(cfg, s)
    ensures var dirs := DirectoryCalls(cfg.migrationsPaths, BundlesMetadata(s.parameters));
            var out := LoadSpec(cfg, s, containerAwareInterfaceExists);
            && |dirs.calls| < |cfg.migrationsPaths|
            && CheckIfBundleRelativePath(cfg.migrationsPaths[|dirs.calls|].value, BundlesMetadata(s.parameters))
               == Err(dirs.error.value)
            && out.error == Some(PathFailed(dirs.error.value))
            && out.state.definitions.Keys == s.definitions.Keys
            && out.state.aliases == s.aliases && out.state.parameters == s.parameters
            && out.state.definitions[ConfigurationId].calls == s.definitions[ConfigurationId].calls + dirs.calls
  {
  }

  /**
   * The configuration definition receives, in this order: the directories, the migration
   * classes, the settings, setTransactional and, with table storage, setMetadataStorageConfiguration.
   */
  lemma ConfigurationCallOrder(cfg: Config, s: ContainerState, containerAwareInterfaceExists: bool)
    requires Preloaded(s) && ParametersWellTyped(s.parameters)
    requires PathsResolve(cfg, s)
    ensures var out := LoadSpec(cfg, s, containerAwareInterfaceExists);
            var before := s.definitions[ConfigurationId];
            && ConfigurationId in out.state.definitions
            && out.state.definitions[ConfigurationId] == before.(calls :=
                 before.calls
                 + DirectoryCalls(cfg.migrationsPaths, BundlesMetadata(s.parameters)).calls
                 + MigrationClassCalls(cfg.migrations)
                 + SettingCalls(cfg)
                 + [TransactionalCall(cfg)]
                 + (if OverridesMetadataStorage(cfg) then [] else [MetadataStorageConfigurationCall]))
  {
    IdsDistinct();
    LoadStages(cfg, s, containerAwareInterfaceExists);
    var s1 := AfterDirectories(cfg, s);
    var s2 := ConfigurationPhase(cfg, s1);
    ConfigurationPhaseCalls(cfg, s1);
    DependencyPhaseConfiguration(cfg, s2);
  }

  /** Organization and template setters only for values that are set; the two flags always. */
  lemma SettingsOnlyWhenSet(cfg: Config)
    ensures cfg.organizeMigrations.None? <==>
              forall c | c in SettingCalls(cfg) :: c.name != "setMigrationOrganization"
    ensures cfg.organizeMigrations.Some? ==>
              MethodCall("setMigrationOrganization", [Str(cfg.organizeMigrations.value)]) in SettingCalls(cfg)
    ensures cfg.customTemplate.None? <==>
              forall c | c in SettingCalls(cfg) :: c.name != "setCustomTemplate"
    ensures cfg.customTemplate.Some? ==>
              MethodCall("setCustomTemplate", [Str(cfg.customTemplate.value)]) in SettingCalls(cfg)
    ensures cfg.organizeMigrations.Some? && cfg.customTemplate.Some? ==>
              SettingCalls(cfg)[0].name == "setMigrationOrganization" && SettingCalls(cfg)[1].name == "setCustomTemplate"
    ensures SettingCalls(cfg)[|SettingCalls(cfg)| - 2..]
         == [MethodCall("setAllOrNothing", [Bool(cfg.allOrNothing)]),
             MethodCall("setCheckDatabasePlatform", [Bool(cfg.checkDatabasePlatform)])]
  {
    var calls := SettingCalls(cfg);
    if cfg.organizeMigrations.Some? {
      assert calls[0].name == "setMigrationOrganization";
    }
    if cfg.customTemplate.Some? {
      assert calls[|calls| - 3].name == "setCustomTemplate";
    }
  }

  /** With the profiler on, the load ends with the flattener and the tagged collector defined. */
  lemma ProfilerDefinitions(cfg: Config, s: ContainerState, containerAwareInterfaceExists: bool)
    requires Preloaded(s) && ParametersWellTyped(s.parameters)
    requires PathsResolve(cfg, s)
    requires cfg.enableProfiler
    ensures var defs := LoadSpec(cfg, s, containerAwareInterfaceExists).state.definitions;
            && FlattenerId in defs && defs[FlattenerId] == FlattenerDefinition
            && CollectorId in defs && defs[CollectorId] == CollectorDefinition
  {
    LoadStages(cfg, s, containerAwareInterfaceExists);
    PhasesProfiler(cfg, AfterDirectories(cfg, s), containerAwareInterfaceExists);
  }

  lemma PhasesProfiler(cfg: Config, s1: ContainerState, containerAwareInterfaceExists: bool)
    requires Preloaded(s1) && ParametersWellTyped(s1.parameters)
    requires cfg.enableProfiler
    ensures var s2 := ConfigurationPhase(cfg, s1);
            var defs := ParameterPhase(cfg, DependencyPhase(cfg, s2), containerAwareInterfaceExists).state.definitions;
            && ParametersWellTyped(s2.parameters)
            && FlattenerId in defs && defs[FlattenerId] == FlattenerDefinition
            && CollectorId in defs && defs[CollectorId] == CollectorDefinition
  {
    IdsDistinct();
    var s2 := ConfigurationPhase(cfg, s1);
    ConfigurationPhaseIds(cfg, s1, FlattenerId);
    ConfigurationPhaseIds(cfg, s1, CollectorId);
    ConfigurationPhaseProfiler(cfg, s1);
    var s3 := DependencyPhase(cfg, s2);
    DependencyPhaseFrame(cfg, s2, FlattenerId);
    DependencyPhaseFrame(cfg, s2, CollectorId);
    assert s3.definitions[FlattenerId] == FlattenerDefinition;
    assert s3.definitions[CollectorId] == CollectorDefinition;
  }

  /** With the profiler off, the flattener and the collector are left as they were, or absent. */
  lemma ProfilerOffUntouched(cfg: Config, s: ContainerState, containerAwareInterfaceExists: bool, id: string)
    requires Preloaded(s) && ParametersWellTyped(s.parameters)
    requires PathsResolve(cfg, s)
    requires !cfg.enableProfiler && (id == FlattenerId || id == CollectorId)
    ensures var defs := LoadSpec(cfg, s, containerAwareInterfaceExists).state.definitions;
            && (id in defs <==> id in s.definitions)
            && (id in defs ==> defs[id] == s.definitions[id])
  {
    OtherEntriesUnchanged(cfg, s, containerAwareInterfaceExists, id);
  }

  /** The collector is built on the dependency factory and the flattener and tagged for the profiler with priority 249. */
  lemma CollectorTagged()
    ensures CollectorDefinition.arguments == [Ref(DependencyFactoryId), Ref(FlattenerId)]
    ensures |CollectorDefinition.tags| == 1
    ensures CollectorDefinition.tags[0].name == "data_collector"
    ensures Entry("id", "doctrine_migrations") in CollectorDefinition.tags[0].attributes
    ensures Entry("priority", "249") in CollectorDefinition.tags[0].attributes
  {
  }

  /** The ids the three phases add and remove. */
  lemma PhasesIds(cfg: Config, s1: ContainerState, containerAwareInterfaceExists: bool, id: string)
    requires Preloaded(s1) && ParametersWellTyped(s1.parameters)
    ensures var out := ParameterPhase(cfg, DependencyPhase(cfg, ConfigurationPhase(cfg, s1)), containerAwareInterfaceExists);
            id in out.state.definitions <==>
              && (id in s1.definitions || (cfg.enableProfiler && (id == FlattenerId || id == CollectorId))
                  || (!OverridesMetadataStorage(cfg) && id == TableStorageId))
              && !(OverridesMetadataStorage(cfg) && id == SchemaFilterListenerId)
              && !(out.error.None? && !containerAwareInterfaceExists && id == ContainerAwareFactoryId)
  {
    IdsDistinct();
    var s2 := ConfigurationPhase(cfg, s1);
    ConfigurationPhaseIds(cfg, s1, id);
    DependencyPhaseIds(cfg, s2, id);
  }

  /**
   * Which definitions exist after a load: the profiler adds exactly the flattener and the
   * collector, table storage adds its definition, an override removes the listener, and a
   * completed load without ContainerAwareInterface removes the container-aware factory.
   */
  lemma LoadDefinitionIds(cfg: Config, s: ContainerState, containerAwareInterfaceExists: bool, id: string)
    requires Preloaded(s) && ParametersWellTyped(s.parameters)
    requires PathsResolve(cfg, s)
    ensures var out := LoadSpec(cfg, s, containerAwareInterfaceExists);
            id in out.state.definitions <==>
              && (id in s.definitions || (cfg.enableProfiler && (id == FlattenerId || id == CollectorId))
                  || (!OverridesMetadataStorage(cfg) && id == TableStorageId))
              && !(OverridesMetadataStorage(cfg) && id == SchemaFilterListenerId)
              && !(out.error.None? && !containerAwareInterfaceExists && id == ContainerAwareFactoryId)
  {
    LoadStages(cfg, s, containerAwareInterfaceExists);
    PhasesIds(cfg, AfterDirectories(cfg, s), containerAwareInterfaceExists, id);
  }

  /** The three phases leave every definition they do not name as it was. */
  lemma PhasesFrame(cfg: Config, s1: ContainerState, containerAwareInterfaceExists: bool, id: string)
    requires Preloaded(s1) && ParametersWellTyped(s1.parameters)
    requires id != ConfigurationId && id != DependencyFactoryId && id != SchemaFilterListenerId
    requires id != ContainerAwareFactoryId && id != TableStorageId
    requires cfg.enableProfiler ==> id != FlattenerId && id != CollectorId
    requires id in s1.definitions
    ensures var out := ParameterPhase(cfg, DependencyPhase(cfg, ConfigurationPhase(cfg, s1)), containerAwareInterfaceExists);
            id in out.state.definitions && out.state.definitions[id] == s1.definitions[id]
  {
    var s2 := ConfigurationPhase(cfg, s1);
    ConfigurationPhaseFrame(cfg, s1, id);
    DependencyPhaseFrame(cfg, s2, id);
  }

  /** Any definition the load does not name is left exactly as it was. */
  lemma OtherEntriesUnchanged(cfg: Config, s: ContainerState, containerAwareInterfaceExists: bool, id: string)
    requires Preloaded(s) && ParametersWellTyped(s.parameters)
    requires id != ConfigurationId && id != DependencyFactoryId && id != SchemaFilterListenerId
    requires id != ContainerAwareFactoryId && id != TableStorageId
    requires cfg.enableProfiler ==> id != FlattenerId && id != CollectorId
    ensures var out := LoadSpec(cfg, s, containerAwareInterfaceExists);
            && (id in out.state.definitions <==> id in s.definitions)
            && (id in s.definitions ==> out.state.definitions[id] == s.definitions[id])
  {
    var s1 := AfterDirectories(cfg, s);
    if PathsResolve(cfg, s) {
      LoadStages(cfg, s, containerAwareInterfaceExists);
      IdsDistinct();
      PhasesIds(cfg, s1, containerAwareInterfaceExists, id);
      if id in s.definitions {
        PhasesFrame(cfg, s1, containerAwareInterfaceExists, id);
      }
    } else {
      FailedLoadState(cfg, s, containerAwareInterfaceExists);
    }
  }

  /** The three phases set no alias but the metadata storage. */
  lemma PhasesKeepOtherAliases(cfg: Config, s1: ContainerState, containerAwareInterfaceExists: bool, name: string)
    requires Preloaded(s1) && ParametersWellTyped(s1.parameters)
    requires name != MetadataStorageAlias
    ensures var out := ParameterPhase(cfg, DependencyPhase(cfg, ConfigurationPhase(cfg, s1)), containerAwareInterfaceExists);
            && (name in out.state.aliases <==> name in s1.aliases)
            && (name in s1.aliases ==> out.state.aliases[name] == s1.aliases[name])
  {
    DependencyPhaseAliases(cfg, ConfigurationPhase(cfg, s1));
  }

  /** Aliases other than the metadata storage are left as they were. */
  lemma OtherAliasesUnchanged(cfg: Config, s: ContainerState, containerAwareInterfaceExists: bool, name: string)
    requires Preloaded(s) && ParametersWellTyped(s.parameters)
    requires name != MetadataStorageAlias
    ensures var out := LoadSpec(cfg, s, containerAwareInterfaceExists);
            && (name in out.state.aliases <==> name in s.aliases)
            && (name in s.aliases ==> out.state.aliases[name] == s.aliases[name])
  {
    if PathsResolve(cfg, s) {
      LoadStages(cfg, s, containerAwareInterfaceExists);
      PhasesKeepOtherAliases(cfg, AfterDirectories(cfg, s), containerAwareInterfaceExists, name);
    } else {
      FailedLoadState(cfg, s, containerAwareInterfaceExists);
    }
  }

  /** Parameters other than the two preferred ones are left as they were. */
  lemma OtherParametersUnchanged(cfg: Config, s: ContainerState, containerAwareInterfaceExists: bool, name: string)
    requires Preloaded(s) && ParametersWellTyped(s.parameters)
    requires name != PreferredEmParameter && name != PreferredConnectionParameter
    ensures var out := LoadSpec(cfg, s, containerAwareInterfaceExists);
            && (name in out.state.parameters <==> name in s.parameters)
            && (name in s.parameters ==> out.state.parameters[name] == s.parameters[name])
  {
    if PathsResolve(cfg, s) {
      LoadStages(cfg, s, containerAwareInterfaceExists);
      PhasesKeepOtherParameters(cfg, AfterDirectories(cfg, s), containerAwareInterfaceExists, name);
    } else {
      FailedLoadState(cfg, s, containerAwareInterfaceExists);
    }
  }

  /** The three phases set no parameter but the two preferred ones. */
  lemma PhasesKeepOtherParameters(cfg: Config, s1: ContainerState, containerAwareInterfaceExists: bool, name: string)
    requires Preloaded(s1) && ParametersWellTyped(s1.parameters)
    requires name != PreferredEmParameter && name != PreferredConnectionParameter
    ensures var out := ParameterPhase(cfg, DependencyPhase(cfg, ConfigurationPhase(cfg, s1)), containerAwareInterfaceExists);
            && (name in out.state.parameters <==> name in s1.parameters)
            && (name in s1.parameters ==> out.state.parameters[name] == s1.parameters[name])
  {
    var s3 := DependencyPhase(cfg, ConfigurationPhase(cfg, s1));
    assert s3.parameters == s1.parameters;
    var out := ParameterPhase(cfg, s3, containerAwareInterfaceExists);
    if out.error.None? {
      assert out.state.parameters == s1.parameters[PreferredEmParameter := ParamOf(cfg.em)]
                                                  [PreferredConnectionParameter := ParamOf(cfg.connection)];
    }
  }

  /**
   * The dependency factory gets one setDefinition per `services` entry (the migration factory
   * defaulted when absent) followed by one per `factories` entry.
   */
  lemma DependencyFactoryCalls(cfg: Config, s: ContainerState, containerAwareInterfaceExists: bool)
    requires Preloaded(s) && ParametersWellTyped(s.parameters)
    requires PathsResolve(cfg, s)
    ensures var defs := LoadSpec(cfg, s, containerAwareInterfaceExists).state.definitions;
            var services := WithDefaultMigrationFactory(cfg.services);
            && DependencyFactoryId in defs
            && defs[DependencyFactoryId].calls
               == s.definitions[DependencyFactoryId].calls + ServiceCalls(services) + FactoryCalls(cfg.factories)
            && |defs[DependencyFactoryId].calls|
               == |s.definitions[DependencyFactoryId].calls| + |services| + |cfg.factories|
  {
    IdsDistinct();
    LoadStages(cfg, s, containerAwareInterfaceExists);
    var s1 := AfterDirectories(cfg, s);
    var s2 := ConfigurationPhase(cfg, s1);
    ConfigurationPhaseFrame(cfg, s1, DependencyFactoryId);
    DependencyPhaseFactory(cfg, s2);
  }

  /**
   * The migration factory is registered with the user's service when one is configured,
   * and with `doctrine.migrations.migrations_factory` otherwise.
   */
  lemma {:induction false} MigrationFactoryRegistered(services: seq<Entry>)
    ensures var id := if HasKey(services, MigrationFactoryClass) then Lookup(services, MigrationFactoryClass).value
                      else DefaultMigrationFactoryId;
            MethodCall("setDefinition", [Str(MigrationFactoryClass), ServiceClosure(id)])
              in ServiceCalls(WithDefaultMigrationFactory(services))
  {
    var r := WithDefaultMigrationFactory(services);
    var id := Lookup(r, MigrationFactoryClass).value;
    assert Entry(MigrationFactoryClass, id) in r;
    var k :| 0 <= k < |r| && r[k] == Entry(MigrationFactoryClass, id);
    assert ServiceCalls(r)[k] == ServiceCall(r[k]);
  }

  /** A MetadataStorage override removes the schema filter listener and defines no table storage. */
  lemma MetadataStorageOverride(cfg: Config, s: ContainerState, containerAwareInterfaceExists: bool)
    requires Preloaded(s) && ParametersWellTyped(s.parameters)
    requires PathsResolve(cfg, s)
    requires OverridesMetadataStorage(cfg)
    ensures var out := LoadSpec(cfg, s, containerAwareInterfaceExists);
            && SchemaFilterListenerId !in out.state.definitions
            && (TableStorageId in out.state.definitions <==> TableStorageId in s.definitions)
            && out.state.aliases == s.aliases
  {
    IdsDistinct();
    LoadStages(cfg, s, containerAwareInterfaceExists);
    var s1 := AfterDirectories(cfg, s);
    PhasesIds(cfg, s1, containerAwareInterfaceExists, SchemaFilterListenerId);
    PhasesIds(cfg, s1, containerAwareInterfaceExists, TableStorageId);
    DependencyPhaseAliases(cfg, ConfigurationPhase(cfg, s1));
  }

  /**
   * Without an override the table storage is defined with a setter per set option and
   * aliased as the metadata storage.
   */
  lemma TableStorageDefined(cfg: Config, s: ContainerState, containerAwareInterfaceExists: bool)
    requires Preloaded(s) && ParametersWellTyped(s.parameters)
    requires PathsResolve(cfg, s)
    requires !OverridesMetadataStorage(cfg)
    ensures var out := LoadSpec(cfg, s, containerAwareInterfaceExists);
            && TableStorageId in out.state.definitions
            && out.state.definitions[TableStorageId]
               == Definition(Some(TableStorageClass), [], StorageCalls(cfg.tableStorage), [])
            && out.state.aliases == s.aliases[MetadataStorageAlias := TableStorageId]
  {
    IdsDistinct();
    LoadStages(cfg, s, containerAwareInterfaceExists);
    var s2 := ConfigurationPhase(cfg, AfterDirectories(cfg, s));
    DependencyPhaseIds(cfg, s2, TableStorageId);
    DependencyPhaseTableStorage(cfg, s2);
    DependencyPhaseAliases(cfg, s2);
  }

  /**
   * Without an override the listener gets the table name (defaulted) as an argument and
   * one schema-filter tag per connection.
   */
  lemma ListenerConfigured(cfg: Config, s: ContainerState, containerAwareInterfaceExists: bool)
    requires Preloaded(s) && ParametersWellTyped(s.parameters)
    requires PathsResolve(cfg, s)
    requires !OverridesMetadataStorage(cfg)
    ensures var out := LoadSpec(cfg, s, containerAwareInterfaceExists);
            var listener := s.definitions[SchemaFilterListenerId];
            && SchemaFilterListenerId in out.state.definitions
            && out.state.definitions[SchemaFilterListenerId]
               == listener.(arguments := listener.arguments + [Str(TableName(cfg.tableStorage))],
                            tags := listener.tags + ConnectionTags(s.parameters))
  {
    IdsDistinct();
    LoadStages(cfg, s, containerAwareInterfaceExists);
    var s1 := AfterDirectories(cfg, s);
    assert s1.definitions[SchemaFilterListenerId] == s.definitions[SchemaFilterListenerId];
    PhasesListener(cfg, s1, containerAwareInterfaceExists);
  }

  lemma PhasesListener(cfg: Config, s1: ContainerState, containerAwareInterfaceExists: bool)
    requires Preloaded(s1) && ParametersWellTyped(s1.parameters)
    requires !OverridesMetadataStorage(cfg)
    ensures var s2 := ConfigurationPhase(cfg, s1);
            var defs := ParameterPhase(cfg, DependencyPhase(cfg, s2), containerAwareInterfaceExists).state.definitions;
            var listener := s1.definitions[SchemaFilterListenerId];
            && ParametersWellTyped(s2.parameters)
            && SchemaFilterListenerId in defs
            && defs[SchemaFilterListenerId]
               == listener.(arguments := listener.arguments + [Str(TableName(cfg.tableStorage))],
                            tags := listener.tags + ConnectionTags(s1.parameters))
  {
    IdsDistinct();
    var s2 := ConfigurationPhase(cfg, s1);
    ConfigurationPhaseFrame(cfg, s1, SchemaFilterListenerId);
    assert s2.definitions[SchemaFilterListenerId] == s1.definitions[SchemaFilterListenerId];
    assert s2.parameters == s1.parameters;
    var s3 := DependencyPhase(cfg, s2);
    DependencyPhaseIds(cfg, s2, SchemaFilterListenerId);
    DependencyPhaseTableStorage(cfg, s2);
    var listener := s1.definitions[SchemaFilterListenerId];
    assert s3.definitions[SchemaFilterListenerId]
        == listener.(arguments := listener.arguments + [Str(TableName(cfg.tableStorage))],
                     tags := listener.tags + ConnectionTags(s1.parameters));
  }

  /** The listener's table name is the configured one, or `doctrine_migration_versions`. */
  lemma TableNameDefault(ts: TableStorage)
    ensures ts.tableName.None? ==> TableName(ts) == "doctrine_migration_versions"
    ensures ts.tableName.Some? ==>
              && TableName(ts) == ts.tableName.value
              && MethodCall("setTableName", [Str(ts.tableName.value)]) == StorageCalls(ts)[0]
  {
  }

  /** A column setter is made exactly for each column option that is set. */
  lemma ColumnSettersOnlyWhenSet(ts: TableStorage)
    ensures |StorageCalls(ts)| ==
              (if ts.tableName.Some? then 1 else 0)
              + (if ts.versionColumnName.Some? then 1 else 0)
              + (if ts.versionColumnLength.Some? then 1 else 0)
              + (if ts.executedAtColumnName.Some? then 1 else 0)
              + (if ts.executionTimeColumnName.Some? then 1 else 0)
    ensures ts.tableName.Some? ==>
              MethodCall("setTableName", [Str(ts.tableName.value)]) in StorageCalls(ts)
    ensures ts.tableName.None? ==>
              forall c | c in StorageCalls(ts) :: c.name != "setTableName"
    ensures ts.versionColumnName.Some? ==>
              MethodCall("setVersionColumnName", [Str(ts.versionColumnName.value)]) in StorageCalls(ts)
    ensures ts.versionColumnName.None? ==>
              forall c | c in StorageCalls(ts) :: c.name != "setVersionColumnName"
    ensures ts.versionColumnLength.Some? ==>
              MethodCall("setVersionColumnLength", [Int(ts.versionColumnLength.value)]) in StorageCalls(ts)
    ensures ts.versionColumnLength.None? ==>
              forall c | c in StorageCalls(ts) :: c.name != "setVersionColumnLength"
    ensures ts.executedAtColumnName.Some? ==>
              MethodCall("setExecutedAtColumnName", [Str(ts.executedAtColumnName.value)]) in StorageCalls(ts)
    ensures ts.executedAtColumnName.None? ==>
              forall c | c in StorageCalls(ts) :: c.name != "setExecutedAtColumnName"
    ensures ts.executionTimeColumnName.Some? ==>
              MethodCall("setExecutionTimeColumnName", [Str(ts.executionTimeColumnName.value)]) in StorageCalls(ts)
    ensures ts.executionTimeColumnName.None? ==>
              forall c | c in StorageCalls(ts) :: c.name != "setExecutionTimeColumnName"
  {
    var a := OptionalCall("setTableName", StrArg(ts.tableName));
    var b := OptionalCall("setVersionColumnName", StrArg(ts.versionColumnName));
    var c := OptionalCall("setVersionColumnLength", IntArg(ts.versionColumnLength));
    var d := OptionalCall("setExecutedAtColumnName", StrArg(ts.executedAtColumnName));
    var e := OptionalCall("setExecutionTimeColumnName", StrArg(ts.executionTimeColumnName));
    assert StorageCalls(ts) == a + b + c + d + e;
    forall x | x in StorageCalls(ts) ensures x in a || x in b || x in c || x in d || x in e {
    }
  }

  /** The listener is tagged once per key of `doctrine.connections`, in order, and not at all without it. */
  lemma OneTagPerConnection(parameters: map<string, Param>)
    requires ParametersWellTyped(parameters)
    ensures ConnectionsParameter !in parameters ==> ConnectionTags(parameters) == []
    ensures ConnectionsParameter in parameters ==>
              var connections := parameters[ConnectionsParameter].entries;
              && |ConnectionTags(parameters)| == |connections|
              && forall k :: 0 <= k < |connections| ==>
                   ConnectionTags(parameters)[k] == Tag("doctrine.dbal.schema_filter", [Entry("connection", connections[k].key)])
  {
  }

  /**
   * Setting both `em` and `connection` throws after every definition change has been made and
   * before either preferred parameter is set; otherwise both are set, null for an absent value.
   */
  lemma EmAndConnectionExclusive(cfg: Config, s: ContainerState, containerAwareInterfaceExists: bool)
    requires Preloaded(s) && ParametersWellTyped(s.parameters)
    requires PathsResolve(cfg, s)
    ensures var out := LoadSpec(cfg, s, containerAwareInterfaceExists);
            && (out.error == Some(EmAndConnectionBothSet) <==> cfg.em.Some? && cfg.connection.Some?)
            && (out.error.Some? ==> out.state.parameters == s.parameters)
            && (out.error.None? ==>
                  out.state.parameters == s.parameters[PreferredEmParameter := ParamOf(cfg.em)]
                                                      [PreferredConnectionParameter := ParamOf(cfg.connection)])
  {
    LoadStages(cfg, s, containerAwareInterfaceExists);
  }

  /** The phases before the parameter check do not read `em` or `connection`. */
  lemma PhasesIgnoreConnection(cfg: Config, s: ContainerState)
    requires Preloaded(s) && ParametersWellTyped(s.parameters)
    ensures var s2 := ConfigurationPhase(cfg, s);
            && ParametersWellTyped(s2.parameters)
            && s2 == ConfigurationPhase(cfg.(em := None, connection := None), s)
            && DependencyPhase(cfg, s2) == DependencyPhase(cfg.(em := None, connection := None), s2)
  {
    var plain := cfg.(em := None, connection := None);
    assert SettingCalls(cfg) == SettingCalls(plain);
    assert TransactionalCall(cfg) == TransactionalCall(plain);
  }

  /**
   * The failing load has made every definition and alias change of the phases before the
   * parameter check, and so leaves what the load without `connection` leaves, except that the
   * accepted load also drops the container-aware factory when ContainerAwareInterface is missing.
   */
  lemma EmAndConnectionKeepsEarlierChanges(cfg: Config, s: ContainerState, containerAwareInterfaceExists: bool)
    requires Preloaded(s) && ParametersWellTyped(s.parameters)
    requires cfg.em.Some? && cfg.connection.Some?
    ensures var failed := LoadSpec(cfg, s, containerAwareInterfaceExists);
            var accepted := LoadSpec(cfg.(connection := None), s, containerAwareInterfaceExists);
            && (PathsResolve(cfg, s) ==>
                  failed.state == DependencyPhase(cfg, ConfigurationPhase(cfg, AfterDirectories(cfg, s))))
            && failed.state.aliases == accepted.state.aliases
            && accepted.state.definitions ==
                 if PathsResolve(cfg, s) && !containerAwareInterfaceExists
                 then failed.state.definitions - {ContainerAwareFactoryId}
                 else failed.state.definitions
  {
    var accepting := cfg.(connection := None);
    assert accepting.migrationsPaths == cfg.migrationsPaths;
    if PathsResolve(cfg, s) {
      LoadStages(cfg, s, containerAwareInterfaceExists);
      LoadStages(accepting, s, containerAwareInterfaceExists);
      var s1 := AfterDirectories(cfg, s);
      assert s1 == AfterDirectories(accepting, s);
      PhasesIgnoreConnection(cfg, s1);
      PhasesIgnoreConnection(accepting, s1);
      assert accepting.(em := None, connection := None) == cfg.(em := None, connection := None);
    }
  }

  /** The container-aware factory stays only where ContainerAwareInterface exists. */
  lemma ContainerAwareFactoryKept(cfg: Config, s: ContainerState, containerAwareInterfaceExists: bool)
    requires Preloaded(s) && ParametersWellTyped(s.parameters)
    requires LoadSpec(cfg, s, containerAwareInterfaceExists).error.None?
    ensures ContainerAwareFactoryId in LoadSpec(cfg, s, containerAwareInterfaceExists).state.definitions
            <==> containerAwareInterfaceExists && ContainerAwareFactoryId in s.definitions
  {
    IdsDistinct();
    if PathsResolve(cfg, s) {
      LoadDefinitionIds(cfg, s, containerAwareInterfaceExists, ContainerAwareFactoryId);
    }
  }
}
