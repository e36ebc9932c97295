# DoctrineMigrationsBundle dependency-injection extension, in Dafny

This project models `DoctrineMigrationsExtension`, the Symfony extension of
DoctrineMigrationsBundle. It covers two things:

- **`@Bundle` path resolution** (`checkIfBundleRelativePath`, `getBundlePath`).
  A migrations directory written as `@SomeBundle/sub/dir` is expanded using the
  `kernel.bundles_metadata` container parameter:
  - the bundle name is the text between `@` and the first `/`;
  - that name's registered root replaces `@SomeBundle`;
  - the rest of the path is kept verbatim.

  An unregistered bundle raises an exception. Its message names the bundle and lists
  the registered ones. A path that does not start with `@` is used as given.
- **`load` and `registerCollector`**: the processed `doctrine_migrations`
  configuration is written into the service container as method calls, definitions,
  an alias, tags and parameters.

The container is an abstract `ContainerBuilder` class (module `Container`). It has
three fields:
- a map from service id to definition (class, arguments, ordered method calls, tags);
- a map of aliases;
- a map of parameters.

Each mutator (`addMethodCall`, `setDefinition`, `removeDefinition`, `setAlias`,
`addTag`, `addArgument`, `setParameter`) is a method. Its postcondition ties the new
state to a pure update of the old one.

`Extension.Load` performs a load step by step, with the source's loops. It is proved
to reach exactly `Extension.LoadSpec(cfg, old state, interface exists)`. That
function runs four phases in order:
1. the directories;
2. the configuration phase (lines 58-77);
3. the dependency phase (lines 79-136);
4. the parameter phase (lines 138-151).

The lemmas in `ExtensionProperties` state what a load promises in terms of
`LoadSpec`.

Files:
- `wrappers.dfy`: Option and Result.
- `bundle_path.dfy`: path resolution and the exception message.
- `container.dfy`: the container.
- `extension.dfy`: the configuration record, the calls and definitions a load adds, the phase functions and the methods.
- `extension_properties.dfy`: the properties of a whole load.

Below, `DoctrineMigrationsExtension.php` stands for
`vendor/doctrine/doctrine-migrations-bundle/src/DependencyInjection/DoctrineMigrationsExtension.php`.

## Model

| member | source | states |
|---|---|---|
| BundlePath.CheckIfBundleRelativePath | vendor/doctrine/doctrine-migrations-bundle/src/DependencyInjection/DoctrineMigrationsExtension.php:154-166 | A path that is empty or does not begin with `@` comes back unchanged. A successful resolution of `@name…` is a root registered under `name` followed by the path's text after `@name`, verbatim. Any failure is exactly `getBundlePath`'s error for that name. |
| BundlePath.FirstSeparator | vendor/doctrine/doctrine-migrations-bundle/src/DependencyInjection/DoctrineMigrationsExtension.php:157 | Where the first piece of `explode('/', …)` ends: no `/` before it, and a `/` at it unless it is the end. |
| BundlePath.FirstSeparatorIsFirst | vendor/doctrine/doctrine-migrations-bundle/src/DependencyInjection/DoctrineMigrationsExtension.php:157 | That position is unique: any index with no `/` before it and a `/` or the end at it is the first separator. |
| BundlePath.BundleName | vendor/doctrine/doctrine-migrations-bundle/src/DependencyInjection/DoctrineMigrationsExtension.php:157-158 | The bundle name contains no `/`. The path is `@`, then the name, then a rest that is empty or starts with `/`. |
| BundlePath.BundleNameIs | vendor/doctrine/doctrine-migrations-bundle/src/DependencyInjection/DoctrineMigrationsExtension.php:157-158 | For a name without `/` and a rest that is empty or starts with `/`, the bundle name of `@` + name + rest is that name. |
| BundlePath.Names | vendor/doctrine/doctrine-migrations-bundle/src/DependencyInjection/DoctrineMigrationsExtension.php:177 | The registered bundle names (`array_keys`), one per bundle, in registration order. |
| BundlePath.FindBundle | vendor/doctrine/doctrine-migrations-bundle/src/DependencyInjection/DoctrineMigrationsExtension.php:173-181 | The lookup misses exactly when the name is not registered. A hit is a root registered under that name. |
| BundlePath.FindBundleFirst | vendor/doctrine/doctrine-migrations-bundle/src/DependencyInjection/DoctrineMigrationsExtension.php:173-181 | A hit is the root of the first bundle registered under the name; no earlier bundle has that name. PHP arrays have one entry per key, so this is the entry `$bundleMetadata[$bundleName]` reads. |
| BundlePath.GetBundlePath | vendor/doctrine/doctrine-migrations-bundle/src/DependencyInjection/DoctrineMigrationsExtension.php:168-182 | With no `kernel.bundles_metadata` parameter, the result is a parameter-not-found error. A registered name gives that bundle's path. An unregistered name gives the RuntimeException with the name and all registered names. |
| BundlePath.ResolveRegistered | vendor/doctrine/doctrine-migrations-bundle/src/DependencyInjection/DoctrineMigrationsExtension.php:156-162 | `@name` + rest, where rest is empty or starts with `/`, resolves to the bundle's root + rest. |
| BundlePath.UnregisteredBundleFails | vendor/doctrine/doctrine-migrations-bundle/src/DependencyInjection/DoctrineMigrationsExtension.php:173-179 | `@name` + rest for an unregistered name fails with the error naming the bundle and listing every registered name. |
| BundlePath.ExampleResolution | vendor/doctrine/doctrine-migrations-bundle/src/DependencyInjection/DoctrineMigrationsExtension.php:154-166 | `@AppBundle/sub/dir`, with AppBundle rooted at `/app/bundles/AppBundle`, resolves to `/app/bundles/AppBundle/sub/dir`. |
| BundlePath.JoinListsEach | vendor/doctrine/doctrine-migrations-bundle/src/DependencyInjection/DoctrineMigrationsExtension.php:177 | Every part occurs in `implode(sep, parts)`. |
| BundlePath.Join | vendor/doctrine/doctrine-migrations-bundle/src/DependencyInjection/DoctrineMigrationsExtension.php:177 | `implode(sep, parts)` starts with the first part, and with two or more parts the separator follows it. |
| BundlePath.NotRegisteredMessage | vendor/doctrine/doctrine-migrations-bundle/src/DependencyInjection/DoctrineMigrationsExtension.php:174-178 | The RuntimeException message contains the missing bundle's name. |
| BundlePath.MessageNamesEveryBundle | vendor/doctrine/doctrine-migrations-bundle/src/DependencyInjection/DoctrineMigrationsExtension.php:174-178 | The exception message contains the missing bundle's name and every registered bundle name. |
| Container.AddMethodCallsTwice | vendor/doctrine/doctrine-migrations-bundle/src/DependencyInjection/DoctrineMigrationsExtension.php:53-60 | Adding method calls in two batches is adding their concatenation: calls keep the order they are made in. |
| Container.AddTagsTwice | vendor/doctrine/doctrine-migrations-bundle/src/DependencyInjection/DoctrineMigrationsExtension.php:132-134 | Adding tags in two batches is adding their concatenation. |
| Container.ContainerBuilder.AddMethodCall | vendor/doctrine/doctrine-migrations-bundle/src/DependencyInjection/DoctrineMigrationsExtension.php:55 | The call is appended to that definition's calls. Nothing else changes. |
| Container.ContainerBuilder.AddArgument | vendor/doctrine/doctrine-migrations-bundle/src/DependencyInjection/DoctrineMigrationsExtension.php:104 | The argument is appended to that definition's arguments. Nothing else changes. |
| Container.ContainerBuilder.AddTag | vendor/doctrine/doctrine-migrations-bundle/src/DependencyInjection/DoctrineMigrationsExtension.php:133 | The tag is appended to that definition's tags. Nothing else changes. |
| Container.ContainerBuilder.SetDefinition | vendor/doctrine/doctrine-migrations-bundle/src/DependencyInjection/DoctrineMigrationsExtension.php:100 | The id maps to the given definition. Nothing else changes. |
| Container.ContainerBuilder.RemoveDefinition | vendor/doctrine/doctrine-migrations-bundle/src/DependencyInjection/DoctrineMigrationsExtension.php:94 | The id no longer has a definition. Nothing else changes. |
| Container.ContainerBuilder.SetAlias | vendor/doctrine/doctrine-migrations-bundle/src/DependencyInjection/DoctrineMigrationsExtension.php:101 | The alias points at the id. Nothing else changes. |
| Container.ContainerBuilder.SetParameter | vendor/doctrine/doctrine-migrations-bundle/src/DependencyInjection/DoctrineMigrationsExtension.php:144-145 | The parameter holds the value. Nothing else changes. |
| Container.ContainerBuilder.HasParameter | vendor/doctrine/doctrine-migrations-bundle/src/DependencyInjection/DoctrineMigrationsExtension.php:129 | True exactly when the parameter exists. |
| Container.ContainerBuilder.GetParameter | vendor/doctrine/doctrine-migrations-bundle/src/DependencyInjection/DoctrineMigrationsExtension.php:131 | The parameter's value. |
| Extension.Lookup | vendor/doctrine/doctrine-migrations-bundle/src/DependencyInjection/DoctrineMigrationsExtension.php:81-82 | `isset($services[$key])` fails exactly when no entry has the key. Otherwise the value read is that of an entry with the key. |
| Extension.LookupFirst | vendor/doctrine/doctrine-migrations-bundle/src/DependencyInjection/DoctrineMigrationsExtension.php:81-82 | A hit is the value of the first entry with the key; no earlier entry has it. |
| Extension.DirectoryCalls | vendor/doctrine/doctrine-migrations-bundle/src/DependencyInjection/DoctrineMigrationsExtension.php:53-56 | The k-th call is `addMigrationsDirectory(namespace k, resolved path k)`, and path k resolved. There is one call per path exactly when no path fails. Otherwise the error is that of the first path without a call. |
| Extension.DirectoryCallsStep | vendor/doctrine/doctrine-migrations-bundle/src/DependencyInjection/DoctrineMigrationsExtension.php:53-56 | One more path appends its resolved call, or stops the calls with its error. |
| Extension.DirectoryCallsStopAtError | vendor/doctrine/doctrine-migrations-bundle/src/DependencyInjection/DoctrineMigrationsExtension.php:53-56 | Once a prefix of the paths fails, the later paths add nothing: the exception leaves the loop. |
| Extension.MigrationClassCalls | vendor/doctrine/doctrine-migrations-bundle/src/DependencyInjection/DoctrineMigrationsExtension.php:58-60 | One `addMigrationClass` per class, in order. |
| Extension.SettingCalls | vendor/doctrine/doctrine-migrations-bundle/src/DependencyInjection/DoctrineMigrationsExtension.php:62-71 | Two calls plus one for each of `organize_migrations` and `custom_template` that is set; every call has exactly one argument. |
| Extension.WithDefaultMigrationFactory | vendor/doctrine/doctrine-migrations-bundle/src/DependencyInjection/DoctrineMigrationsExtension.php:81-83 | Afterwards `services` has a MigrationFactory entry. A user-given MigrationFactory entry leaves `services` exactly as it was; otherwise exactly one entry is appended to the original ones. The entry read is the user's when one was given, else `doctrine.migrations.migrations_factory`. |
| Extension.LookupPastMissing | vendor/doctrine/doctrine-migrations-bundle/src/DependencyInjection/DoctrineMigrationsExtension.php:82 | A key that was absent, once appended, is read back with the appended value. |
| Extension.ServiceCalls | vendor/doctrine/doctrine-migrations-bundle/src/DependencyInjection/DoctrineMigrationsExtension.php:85-87 | One `setDefinition(doctrine id, closure over the service)` per entry, in order. |
| Extension.FactoryCalls | vendor/doctrine/doctrine-migrations-bundle/src/DependencyInjection/DoctrineMigrationsExtension.php:89-91 | One `setDefinition(doctrine id, reference to the factory)` per entry, in order. |
| Extension.FilterTags | vendor/doctrine/doctrine-migrations-bundle/src/DependencyInjection/DoctrineMigrationsExtension.php:132-134 | One `doctrine.dbal.schema_filter` tag per connection, in order, whose `connection` attribute is the connection's key. |
| Extension.ConnectionTags | vendor/doctrine/doctrine-migrations-bundle/src/DependencyInjection/DoctrineMigrationsExtension.php:129-135 | No tags without the `doctrine.connections` parameter; with it, one tag per connection. Every tag is a `doctrine.dbal.schema_filter` tag with a single attribute. |
| Extension.WithTableStorage | vendor/doctrine/doctrine-migrations-bundle/src/DependencyInjection/DoctrineMigrationsExtension.php:96-135 | The table-storage branch keeps the parameters. It points `doctrine.migrations.metadata_storage` at the table storage. |
| Extension.WithTableStorageIds | vendor/doctrine/doctrine-migrations-bundle/src/DependencyInjection/DoctrineMigrationsExtension.php:99-100 | The branch adds the table storage id and no other. |
| Extension.WithTableStorageDefinitions | vendor/doctrine/doctrine-migrations-bundle/src/DependencyInjection/DoctrineMigrationsExtension.php:99-135 | The table storage is a TableMetadataStorageConfiguration with the setters of the set options. The listener gains the table name as an argument, and one tag per connection. |
| Extension.WithTableStorageConfiguration | vendor/doctrine/doctrine-migrations-bundle/src/DependencyInjection/DoctrineMigrationsExtension.php:126 | The configuration gets `setMetadataStorageConfiguration(table storage)` appended. |
| Extension.WithTableStorageFrame | vendor/doctrine/doctrine-migrations-bundle/src/DependencyInjection/DoctrineMigrationsExtension.php:96-135 | Every other definition is unchanged. |
| Extension.TableStorageSoFarAppend | vendor/doctrine/doctrine-migrations-bundle/src/DependencyInjection/DoctrineMigrationsExtension.php:106-123 | Setters added to the table storage after it is registered end up in the registered definition. |
| Extension.StorageCalls | vendor/doctrine/doctrine-migrations-bundle/src/DependencyInjection/DoctrineMigrationsExtension.php:106-123 | One setter for each table-storage option that is set; every setter has exactly one argument. |
| Extension.ConfigurationPhase | vendor/doctrine/doctrine-migrations-bundle/src/DependencyInjection/DoctrineMigrationsExtension.php:58-77 | The phase keeps the definitions `load` reads, the aliases and the parameters. |
| Extension.ConfigurationPhaseIds | vendor/doctrine/doctrine-migrations-bundle/src/DependencyInjection/DoctrineMigrationsExtension.php:73-75 | The phase adds the flattener and collector ids when the profiler is on, and no other id. |
| Extension.ConfigurationPhaseCalls | vendor/doctrine/doctrine-migrations-bundle/src/DependencyInjection/DoctrineMigrationsExtension.php:58-77 | The configuration gets, in order: the class calls, the settings, then `setTransactional`. |
| Extension.ConfigurationPhaseProfiler | vendor/doctrine/doctrine-migrations-bundle/src/DependencyInjection/DoctrineMigrationsExtension.php:184-200 | With the profiler on, the flattener and the tagged collector are defined. |
| Extension.ConfigurationPhaseFrame | vendor/doctrine/doctrine-migrations-bundle/src/DependencyInjection/DoctrineMigrationsExtension.php:58-77 | Every other definition is unchanged. |
| Extension.WithCollector | vendor/doctrine/doctrine-migrations-bundle/src/DependencyInjection/DoctrineMigrationsExtension.php:184-200 | `registerCollector` on values: the flattener and the collector are defined as given, aliases, parameters and every other definition are kept. |
| Extension.DefaultKeepsOverride | vendor/doctrine/doctrine-migrations-bundle/src/DependencyInjection/DoctrineMigrationsExtension.php:81-93 | Defaulting the migration factory neither adds nor hides a MetadataStorage override. |
| Extension.DependencyPhase | vendor/doctrine/doctrine-migrations-bundle/src/DependencyInjection/DoctrineMigrationsExtension.php:79-136 | The phase keeps the parameters, and the configuration and dependency factory definitions. |
| Extension.DependencyPhaseIds | vendor/doctrine/doctrine-migrations-bundle/src/DependencyInjection/DoctrineMigrationsExtension.php:93-100 | With an override, the listener is removed and nothing is added. Without one, the table storage is added and nothing is removed. |
| Extension.DependencyPhaseAliases | vendor/doctrine/doctrine-migrations-bundle/src/DependencyInjection/DoctrineMigrationsExtension.php:93-101 | The metadata storage alias is set exactly when there is no override. |
| Extension.DependencyPhaseFactory | vendor/doctrine/doctrine-migrations-bundle/src/DependencyInjection/DoctrineMigrationsExtension.php:85-91 | The dependency factory gets the service calls, then the factory calls. |
| Extension.DependencyPhaseConfiguration | vendor/doctrine/doctrine-migrations-bundle/src/DependencyInjection/DoctrineMigrationsExtension.php:93-126 | The configuration gets `setMetadataStorageConfiguration` exactly when there is no override. |
| Extension.DependencyPhaseTableStorage | vendor/doctrine/doctrine-migrations-bundle/src/DependencyInjection/DoctrineMigrationsExtension.php:96-135 | Without an override: the table storage and its setters; the listener with the table name and the connection tags. |
| Extension.DependencyPhaseFrame | vendor/doctrine/doctrine-migrations-bundle/src/DependencyInjection/DoctrineMigrationsExtension.php:79-136 | Every other definition is unchanged. |
| Extension.ParameterPhase | vendor/doctrine/doctrine-migrations-bundle/src/DependencyInjection/DoctrineMigrationsExtension.php:138-151 | It fails exactly when both `em` and `connection` are set, and then leaves the container as it was. Otherwise it sets both preferred parameters and keeps the aliases. It removes the container-aware factory exactly when the interface is missing. |
| Extension.LoadSpec | vendor/doctrine/doctrine-migrations-bundle/src/DependencyInjection/DoctrineMigrationsExtension.php:40-152 | The outcome of `load`: the InvalidArgumentException only when both `em` and `connection` are set; a path error is exactly the first failing directory's error; the configuration and dependency factory definitions are still present afterwards. |
| Extension.ExceptionMessage | vendor/doctrine/doctrine-migrations-bundle/src/DependencyInjection/DoctrineMigrationsExtension.php:139-141 | The InvalidArgumentException text for `em` and `connection` set together, verbatim; for an unregistered bundle (lines 174-178), a message that names the bundle and every registered bundle; no text for the missing-parameter exception. |
| Extension.RegisterCollector | vendor/doctrine/doctrine-migrations-bundle/src/DependencyInjection/DoctrineMigrationsExtension.php:184-200 | The container ends with the flattener and the tagged collector defined. |
| Extension.AddMigrationsDirectories | vendor/doctrine/doctrine-migrations-bundle/src/DependencyInjection/DoctrineMigrationsExtension.php:53-56 | The loop appends exactly the directory calls and returns the first path's error, if any. |
| Extension.AddMigrationClasses | vendor/doctrine/doctrine-migrations-bundle/src/DependencyInjection/DoctrineMigrationsExtension.php:58-60 | The loop appends exactly the class calls. |
| Extension.ApplySettings | vendor/doctrine/doctrine-migrations-bundle/src/DependencyInjection/DoctrineMigrationsExtension.php:62-71 | The settings are appended to the configuration. |
| Extension.AddMethodCallIfSet | vendor/doctrine/doctrine-migrations-bundle/src/DependencyInjection/DoctrineMigrationsExtension.php:62-68 | The setter is appended only when its option is set. |
| Extension.ApplyConfigurationPhase | vendor/doctrine/doctrine-migrations-bundle/src/DependencyInjection/DoctrineMigrationsExtension.php:58-77 | Reaches the configuration phase's state. |
| Extension.SetDependencyFactoryDefinitions | vendor/doctrine/doctrine-migrations-bundle/src/DependencyInjection/DoctrineMigrationsExtension.php:85-91 | The two loops append the service calls, then the factory calls. |
| Extension.ApplyDependencyPhase | vendor/doctrine/doctrine-migrations-bundle/src/DependencyInjection/DoctrineMigrationsExtension.php:79-136 | Reaches the dependency phase's state. |
| Extension.ConfigureTableStorage | vendor/doctrine/doctrine-migrations-bundle/src/DependencyInjection/DoctrineMigrationsExtension.php:96-135 | Reaches the table-storage branch's state. |
| Extension.DefineTableStorage | vendor/doctrine/doctrine-migrations-bundle/src/DependencyInjection/DoctrineMigrationsExtension.php:99-123 | Registers the table storage with its setters and its alias, and gives the listener the table name. |
| Extension.AddColumnSetters | vendor/doctrine/doctrine-migrations-bundle/src/DependencyInjection/DoctrineMigrationsExtension.php:110-123 | Adds a column setter exactly for each column option that is set, in source order. |
| Extension.TagSchemaFilterListener | vendor/doctrine/doctrine-migrations-bundle/src/DependencyInjection/DoctrineMigrationsExtension.php:129-135 | The loop tags the listener once per key of `doctrine.connections`, or not at all without it. |
| Extension.Load | vendor/doctrine/doctrine-migrations-bundle/src/DependencyInjection/DoctrineMigrationsExtension.php:40-152 | The final container and the exception, if any, are exactly `LoadSpec` of the configuration, the initial container and whether ContainerAwareInterface exists. |
| ExtensionProperties.AfterDirectories | vendor/doctrine/doctrine-migrations-bundle/src/DependencyInjection/DoctrineMigrationsExtension.php:53-56 | The directories change only the configuration definition: the ids, the aliases, the parameters and every other definition are kept. |
| ExtensionProperties.LoadStages | vendor/doctrine/doctrine-migrations-bundle/src/DependencyInjection/DoctrineMigrationsExtension.php:53-151 | When every path resolves, a load is the configuration phase, then the dependency phase, then the parameter phase. |
| ExtensionProperties.FailedLoadState | vendor/doctrine/doctrine-migrations-bundle/src/DependencyInjection/DoctrineMigrationsExtension.php:53-56 | A failing path leaves only the directories added before it. |
| ExtensionProperties.PathFailureStopsLoad | vendor/doctrine/doctrine-migrations-bundle/src/DependencyInjection/DoctrineMigrationsExtension.php:53-56 | A failing path ends the load with its own error. The paths before it are added in order. Ids, aliases and parameters are unchanged. |
| ExtensionProperties.ConfigurationCallOrder | vendor/doctrine/doctrine-migrations-bundle/src/DependencyInjection/DoctrineMigrationsExtension.php:53-126 | The configuration's calls are, in order: directories, classes, settings, `setTransactional`, then `setMetadataStorageConfiguration` unless overridden. |
| ExtensionProperties.SettingsOnlyWhenSet | vendor/doctrine/doctrine-migrations-bundle/src/DependencyInjection/DoctrineMigrationsExtension.php:62-71 | There is an organization or template setter exactly when that option is set, and with both set `setMigrationOrganization` comes first and `setCustomTemplate` second. The last two settings are always `setAllOrNothing` and `setCheckDatabasePlatform`. |
| ExtensionProperties.ProfilerDefinitions | vendor/doctrine/doctrine-migrations-bundle/src/DependencyInjection/DoctrineMigrationsExtension.php:73-75 | With the profiler on, the load ends with the flattener and the tagged collector. |
| ExtensionProperties.PhasesProfiler | vendor/doctrine/doctrine-migrations-bundle/src/DependencyInjection/DoctrineMigrationsExtension.php:73-75 | With the profiler on, the phases after the directories end with the flattener and the tagged collector, whatever the container they start from. |
| ExtensionProperties.ProfilerOffUntouched | vendor/doctrine/doctrine-migrations-bundle/src/DependencyInjection/DoctrineMigrationsExtension.php:73-75 | With the profiler off, the flattener and collector ids keep their presence and their definitions. |
| ExtensionProperties.CollectorTagged | vendor/doctrine/doctrine-migrations-bundle/src/DependencyInjection/DoctrineMigrationsExtension.php:189-198 | The collector takes the dependency factory and the flattener. It has one `data_collector` tag, with id `doctrine_migrations` and priority `249`. |
| ExtensionProperties.PhasesIds | vendor/doctrine/doctrine-migrations-bundle/src/DependencyInjection/DoctrineMigrationsExtension.php:73-151 | Which ids the three phases add and remove, id by id. |
| ExtensionProperties.LoadDefinitionIds | vendor/doctrine/doctrine-migrations-bundle/src/DependencyInjection/DoctrineMigrationsExtension.php:73-151 | After a load, an id is defined exactly when it was already defined, or the profiler adds it, or table storage adds it. It is also not the listener removed by an override, and not the factory removed when the interface is missing. |
| ExtensionProperties.PhasesFrame | vendor/doctrine/doctrine-migrations-bundle/src/DependencyInjection/DoctrineMigrationsExtension.php:58-151 | The phases leave every definition they do not name unchanged. |
| ExtensionProperties.OtherEntriesUnchanged | vendor/doctrine/doctrine-migrations-bundle/src/DependencyInjection/DoctrineMigrationsExtension.php:40-152 | A load leaves every definition it does not name unchanged, in presence and content. |
| ExtensionProperties.PhasesKeepOtherAliases | vendor/doctrine/doctrine-migrations-bundle/src/DependencyInjection/DoctrineMigrationsExtension.php:101 | The phases set no alias other than the metadata storage. |
| ExtensionProperties.OtherAliasesUnchanged | vendor/doctrine/doctrine-migrations-bundle/src/DependencyInjection/DoctrineMigrationsExtension.php:101 | A load changes no alias other than the metadata storage. |
| ExtensionProperties.PhasesKeepOtherParameters | vendor/doctrine/doctrine-migrations-bundle/src/DependencyInjection/DoctrineMigrationsExtension.php:144-145 | The phases set no parameter other than the two preferred ones. |
| ExtensionProperties.OtherParametersUnchanged | vendor/doctrine/doctrine-migrations-bundle/src/DependencyInjection/DoctrineMigrationsExtension.php:144-145 | A load changes no parameter other than the two preferred ones. |
| ExtensionProperties.DependencyFactoryCalls | vendor/doctrine/doctrine-migrations-bundle/src/DependencyInjection/DoctrineMigrationsExtension.php:79-91 | The dependency factory gets one call per `services` entry, with MigrationFactory defaulted, then one per `factories` entry. |
| ExtensionProperties.MigrationFactoryRegistered | vendor/doctrine/doctrine-migrations-bundle/src/DependencyInjection/DoctrineMigrationsExtension.php:81-86 | MigrationFactory is registered with the user's service, or with `doctrine.migrations.migrations_factory` when none is given. |
| ExtensionProperties.MetadataStorageOverride | vendor/doctrine/doctrine-migrations-bundle/src/DependencyInjection/DoctrineMigrationsExtension.php:93-94 | An override removes the listener, defines no table storage and sets no alias. |
| ExtensionProperties.TableStorageDefined | vendor/doctrine/doctrine-migrations-bundle/src/DependencyInjection/DoctrineMigrationsExtension.php:99-124 | Without an override, the table storage has the setters of the set options and is aliased as the metadata storage. |
| ExtensionProperties.ListenerConfigured | vendor/doctrine/doctrine-migrations-bundle/src/DependencyInjection/DoctrineMigrationsExtension.php:103-135 | Without an override, the listener gets the table name as an argument and one tag per connection. |
| ExtensionProperties.PhasesListener | vendor/doctrine/doctrine-migrations-bundle/src/DependencyInjection/DoctrineMigrationsExtension.php:103-135 | Without an override, the phases after the directories give the listener the table name and one tag per connection, whatever the container they start from. |
| ExtensionProperties.TableNameDefault | vendor/doctrine/doctrine-migrations-bundle/src/DependencyInjection/DoctrineMigrationsExtension.php:103-108 | The table name is the configured one, or `doctrine_migration_versions`. `setTableName` is the first setter when a name is configured. |
| ExtensionProperties.ColumnSettersOnlyWhenSet | vendor/doctrine/doctrine-migrations-bundle/src/DependencyInjection/DoctrineMigrationsExtension.php:103-123 | There is one setter per non-null option, and none for a null one. For each of `setTableName`, `setVersionColumnName`, `setVersionColumnLength`, `setExecutedAtColumnName` and `setExecutionTimeColumnName`, the call with the configured value is present when the option is set, and no call of that name is present otherwise. |
| ExtensionProperties.OneTagPerConnection | vendor/doctrine/doctrine-migrations-bundle/src/DependencyInjection/DoctrineMigrationsExtension.php:129-135 | There is one schema-filter tag per key of `doctrine.connections`, in order, and none without the parameter. |
| ExtensionProperties.EmAndConnectionExclusive | vendor/doctrine/doctrine-migrations-bundle/src/DependencyInjection/DoctrineMigrationsExtension.php:138-145 | The exception is raised exactly when both are set, and then no parameter changes. Otherwise both preferred parameters are set, null for an absent value. |
| ExtensionProperties.PhasesIgnoreConnection | vendor/doctrine/doctrine-migrations-bundle/src/DependencyInjection/DoctrineMigrationsExtension.php:58-136 | The phases before the check do not depend on `em` or `connection`. |
| ExtensionProperties.EmAndConnectionKeepsEarlierChanges | vendor/doctrine/doctrine-migrations-bundle/src/DependencyInjection/DoctrineMigrationsExtension.php:138-151 | With both `em` and `connection` set and every path resolving, the failing load has made every change of the dependency phase (its state is the dependency phase's result), for either value of `interface_exists`. Its aliases are those of the load without `connection`. Its definitions are too, except that the accepted load also removes the container-aware factory when the interface is missing. |
| ExtensionProperties.ContainerAwareFactoryKept | vendor/doctrine/doctrine-migrations-bundle/src/DependencyInjection/DoctrineMigrationsExtension.php:147-151 | After a completed load, the container-aware factory is defined exactly when the interface exists and it was defined before. |

## Left out

- `processConfiguration` and the `Configuration` tree (lines 42-44): the configuration is an input record, taken as already validated. `organize_migrations: false` is `None`. `Configuration.php` is not part of this model.
- Loading `services.xml` through `FileLocator`/`XmlFileLoader` (lines 46-49) is file I/O. The container is given with its definitions already registered. `load` requires the configuration, dependency factory and schema filter listener definitions, which `services.xml` always defines. `load` reads the first two; it reads the listener only without a MetadataStorage override, and otherwise removes it.
- `interface_exists(ContainerAwareInterface::class)` (line 147) is runtime reflection. It is a boolean input.
- `Reference`, `ServiceClosureArgument` and Symfony's `Definition` are values here: a class, arguments, ordered method calls and tags. Object identity is not modelled. The source keeps `$configurationDefinition` and `$filterDefinition` as objects that stay in the container; the model updates the container entry by id instead, which is the same while no id is redefined under them.
- Symfony's own rules for the container (alias and definition ids sharing one namespace, id normalisation, the checks `getDefinition` makes) are not modelled. `load` reads only definitions that are required to exist.
- PHP arrays: `services`, `factories`, `migrations_paths` and `doctrine.connections` are ordered lists of entries. Keys are not required to be unique; a lookup takes the first entry with the key. A null value in `services` (which `isset` treats as absent) is not modelled. Integer-like keys, which PHP converts to integers, are not modelled either.
- `kernel.bundles_metadata` is a list of (name, path) pairs in registration order. The other fields of a bundle's metadata are not modelled. A missing parameter raises Symfony's ParameterNotFoundException. That exception's message is not modelled (`Extension.ExceptionMessage` gives `None` for it).
- `getXsdValidationBasePath` and `getNamespace` (lines 202-210) return constants. They have no behaviour to prove.
- `assert(is_array($bundleMetadata))` (line 171) is a type precondition, `ParametersWellTyped`, on the two parameters `load` reads.
