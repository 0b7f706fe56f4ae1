# Fili table-resolution core: constraints, the metric maker registry, shard identities

This project models three small components of Fili, the federation layer that
answers logical analytic queries against a Druid-like segment store, and proves
properties of the models in Dafny.

- **`DataSourceConstraints`** (`data_source_constraint.dfy`) models
  `DataSourceConstraint`. This is the immutable value that records what a
  request needs: request, filter and metric dimensions, metric names and API
  filters. It also holds three derived sets: all dimensions, their API names,
  and all column names. The datatype constructor takes all eight fields as
  given, like the eight-argument Java constructor. `Create` is the
  five-argument constructor, which derives the three sets. The model also has
  the copy constructor, `withMetricIntersection`, `unconstrained`, `equals`
  and `hashCode`. The getters are the datatype's field accessors. `Consistent`
  says that the derived sets agree with the direct fields. `Dimension` carries
  its API name and other attributes, so two dimensions may share an API name.
  A physical table is reduced to its dimensions, its metric-column names and
  its column names.
- **`MetricMakers`** (`metric_maker_dictionary.dfy`) models
  `MetricMakerDictionary`. It is a class whose `nameToMetricMaker` map is
  updated in place by `Add` and `AddAll` and read by `FindByName`, `GetAll`
  and `Equals`. The pure functions `Register` and `RegisterAll` say what the
  map becomes. The constructor-matching rule of `findConstructor` works over
  abstract data. A signature is a sequence of (type simple name, parameter
  name) pairs, and a template supplies a set of parameter keys. `ScanBackward`
  is the backward `while` loop. `FindConstructor` is the `for` loop over the
  constructors of a class, in the order reflection lists them. Both are proved against the reference predicate `Fits`
  and the function `FirstFit`.
- **`ShardSpecs`** (`shard_spec.dfy`) models `IdOnlyShardSpec` and its
  subclass `NumberedShardSpec` as one datatype with two variants. The variants
  share the inherited fields `shardType` and `partitionNum`. Java `int` is the
  newtype `JavaInt.int32`, and `partitionNum + 1` wraps as in Java.

The file `java_int.dfy` holds 32-bit arithmetic, used for the shard count and
for `Objects.hash`. The file `wrappers.dfy` holds `Option` and `Result`.

Two points of the code that shape the model:

- `withMetricIntersection` copies the old derived sets instead of deriving
  them again (DataSourceConstraint.java:181-183). See "Findings".
- The `@NotNull` annotations on the constructors' parameters are not checked
  at run time, so the code has no null check to model.

## Model

| member | source | states |
|---|---|---|
| `DataSourceConstraints.GenerateAllDimensions` | fili-core/src/main/java/com/yahoo/bard/webservice/table/resolver/DataSourceConstraint.java:243-251 | All dimensions are exactly the dimensions of the three direct sets, and there are no more of them than those sets hold together |
| `DataSourceConstraints.GenerateAllDimensionNames` | fili-core/src/main/java/com/yahoo/bard/webservice/table/resolver/DataSourceConstraint.java:260-266 | A name is present iff some dimension has it as its API name; every dimension's name is present; there are never more names than dimensions |
| `DataSourceConstraints.GenerateAllColumnNames` | fili-core/src/main/java/com/yahoo/bard/webservice/table/resolver/DataSourceConstraint.java:275-281 | A column name is a dimension name or a metric name, and there are at most as many as both sets together |
| `DataSourceConstraints.ApiNamesSize` | fili-core/src/main/java/com/yahoo/bard/webservice/table/resolver/DataSourceConstraint.java:260-266 | Mapping dimensions to API names never gives more names than dimensions (by induction on the set) |
| `DataSourceConstraints.ApiNamesCollapse` | fili-core/src/main/java/com/yahoo/bard/webservice/table/resolver/DataSourceConstraint.java:260-266 | Two distinct dimensions with the same API name give strictly fewer names than dimensions, because the API name need not be injective |
| `DataSourceConstraints.ApiNamesUnion` | fili-core/src/main/java/com/yahoo/bard/webservice/table/resolver/DataSourceConstraint.java:243-266 | The API names of a union are the union of the API names |
| `DataSourceConstraints.Create` | fili-core/src/main/java/com/yahoo/bard/webservice/table/resolver/DataSourceConstraint.java:63-78 | The five-argument constructor stores the five direct fields unchanged, and its derived sets are consistent: all dimensions = the union of the three sets, dimension names = their API names, column names = dimension names ∪ metric names |
| `DataSourceConstraints.ConsistentIffCreated` | fili-core/src/main/java/com/yahoo/bard/webservice/table/resolver/DataSourceConstraint.java:63-111 | A constraint with any eight fields is consistent exactly when it equals what the five-argument constructor makes of its direct fields |
| `DataSourceConstraints.Copy` | fili-core/src/main/java/com/yahoo/bard/webservice/table/resolver/DataSourceConstraint.java:118-127 | The copy is identical to its source, is equal to it under `equals`, has the same derived sets, and is consistent if the source is |
| `DataSourceConstraints.WithMetricIntersection` | fili-core/src/main/java/com/yahoo/bard/webservice/table/resolver/DataSourceConstraint.java:173-186 | The new metric names are those in both the argument and the old metric names, so they are a subset of the old ones; the other four direct fields and all three derived sets are the old ones |
| `DataSourceConstraints.WithMetricIntersectionIdempotent` | fili-core/src/main/java/com/yahoo/bard/webservice/table/resolver/DataSourceConstraint.java:173-186 | Narrowing twice with the same names gives the same constraint as narrowing once, both structurally and under `equals` |
| `DataSourceConstraints.WithMetricIntersectionComposes` | fili-core/src/main/java/com/yahoo/bard/webservice/table/resolver/DataSourceConstraint.java:173-186 | Narrowing by S then T equals narrowing by S ∩ T, and so equals narrowing by T then S |
| `DataSourceConstraints.WithMetricIntersectionCoversColumns` | fili-core/src/main/java/com/yahoo/bard/webservice/table/resolver/DataSourceConstraint.java:174-185 | After narrowing a consistent constraint, the column names still include the dimension names and the new metric names |
| `DataSourceConstraints.WithMetricIntersectionConsistentIff` | fili-core/src/main/java/com/yahoo/bard/webservice/table/resolver/DataSourceConstraint.java:174-185 | Narrowing a consistent constraint stays consistent iff every dropped metric name is also a dimension name, i.e. iff no stale metric name is left among the column names |
| `DataSourceConstraints.WithMetricIntersectionKeepsStaleName` | fili-core/src/main/java/com/yahoo/bard/webservice/table/resolver/DataSourceConstraint.java:181-183 | Narrowing metric names {added, deleted} to {added} leaves "deleted" among the column names, so the result is not consistent |
| `DataSourceConstraints.WithMetricIntersectionRederived` | fili-core/src/main/java/com/yahoo/bard/webservice/table/resolver/DataSourceConstraint.java:173-186 | Corrected narrowing: it is `equals` to the original narrowing and consistent; from a consistent constraint it keeps the dimension sets, and its column names are the dimension names plus the narrowed metric names |
| `DataSourceConstraints.WithMetricIntersectionRederivedComposes` | fili-core/src/main/java/com/yahoo/bard/webservice/table/resolver/DataSourceConstraint.java:173-186 | The corrected narrowing composes by intersection and is idempotent |
| `DataSourceConstraints.Unconstrained` | fili-core/src/main/java/com/yahoo/bard/webservice/table/resolver/DataSourceConstraint.java:195-208 | Request dimensions are the table's dimensions; filter and metric dimensions and filters are empty; metric names are the table's metric columns; all dimensions are the table's dimensions; dimension names are exactly their API names; column names are the schema's column names as-is |
| `DataSourceConstraints.UnconstrainedConsistentIff` | fili-core/src/main/java/com/yahoo/bard/webservice/table/resolver/DataSourceConstraint.java:195-208 | The unconstrained constraint is consistent iff the schema's column names are the dimension API names plus the metric columns |
| `DataSourceConstraints.Equals` | fili-core/src/main/java/com/yahoo/bard/webservice/table/resolver/DataSourceConstraint.java:210-224 | `equals` holds iff the five direct fields agree; the same-object shortcut never changes the answer, and the derived sets are not compared |
| `DataSourceConstraints.ObjectsHash` | fili-core/src/main/java/com/yahoo/bard/webservice/table/resolver/DataSourceConstraint.java:226-229 | `Objects.hash` of no values is 1, and of any values it agrees modulo 2^32 with the exact polynomial 31^n + Σ hᵢ·31^(n-1-i) |
| `DataSourceConstraints.HashCode` | fili-core/src/main/java/com/yahoo/bard/webservice/table/resolver/DataSourceConstraint.java:226-229 | `hashCode` is, modulo 2^32, 31^5 + 31^4·h(requestDimensions) + 31^3·h(filterDimensions) + 31^2·h(metricDimensions) + 31·h(metricNames) + h(apiFilters) |
| `DataSourceConstraints.EqualsIsEquivalence` | fili-core/src/main/java/com/yahoo/bard/webservice/table/resolver/DataSourceConstraint.java:210-224 | `equals` is reflexive, symmetric and transitive |
| `DataSourceConstraints.EqualsIgnoresDerivedSets` | fili-core/src/main/java/com/yahoo/bard/webservice/table/resolver/DataSourceConstraint.java:210-224 | Two constraints that differ only in a derived set are equal under `equals` but are not identical |
| `DataSourceConstraints.ConsistentEqualsIsIdentity` | fili-core/src/main/java/com/yahoo/bard/webservice/table/resolver/DataSourceConstraint.java:210-224 | For consistent constraints, `equals` holds iff they are identical |
| `DataSourceConstraints.EqualsImpliesEqualHashCode` | fili-core/src/main/java/com/yahoo/bard/webservice/table/resolver/DataSourceConstraint.java:210-229 | Constraints that are `equals` have equal `hashCode`, which is `Objects.hash` over the five direct fields in 32-bit arithmetic |
| `MetricMakers.Lower` | luthier/src/main/java/com/yahoo/luthier/webservice/data/config/metric/MetricMakerDictionary.java:91 | `toLowerCase(Locale.ENGLISH)` keeps the length and maps each character on its own: a letter A to Z becomes a letter a to z, every other character is kept, and no letter A to Z remains |
| `MetricMakers.LowerIsLowerCase` | luthier/src/main/java/com/yahoo/luthier/webservice/data/config/metric/MetricMakerDictionary.java:91 | Lower-casing gives a lower-case string; lower-case strings are exactly its fixed points; it is idempotent |
| `MetricMakers.Register` | luthier/src/main/java/com/yahoo/luthier/webservice/data/config/metric/MetricMakerDictionary.java:110-114 | After a registration the lower-cased name is a key and the keys grew by exactly that name; makers already present keep their entries; a new name maps to the new maker |
| `MetricMakers.RegisterAll` | luthier/src/main/java/com/yahoo/luthier/webservice/data/config/metric/MetricMakerDictionary.java:130-136 | Registering a batch keeps every existing name with its maker, and every new name maps to some maker of the batch |
| `MetricMakers.RegisterAllKeepsExisting` | luthier/src/main/java/com/yahoo/luthier/webservice/data/config/metric/MetricMakerDictionary.java:130-136 | Registering a batch adds exactly the batch's lower-cased `toString` keys and never replaces a maker that is already present |
| `MetricMakers.RegisterAllFirstWins` | luthier/src/main/java/com/yahoo/luthier/webservice/data/config/metric/MetricMakerDictionary.java:130-136 | For a new key, the maker stored under it is the first maker in the batch that has that key |
| `MetricMakers.MetricMakerDictionary.constructor` | luthier/src/main/java/com/yahoo/luthier/webservice/data/config/metric/MetricMakerDictionary.java:41-43 | A new dictionary is empty, and all its keys are lower-case |
| `MetricMakers.MetricMakerDictionary.FindByName` | luthier/src/main/java/com/yahoo/luthier/webservice/data/config/metric/MetricMakerDictionary.java:90-92 | Finds a maker iff the lower-cased name is a key, and then it is the maker stored under that key |
| `MetricMakers.FindByNameIgnoresCase` | luthier/src/main/java/com/yahoo/luthier/webservice/data/config/metric/MetricMakerDictionary.java:90-92 | Names with the same lower-case form find the same maker, and so does the lower-case form itself |
| `MetricMakers.FindByNameStoredKey` | luthier/src/main/java/com/yahoo/luthier/webservice/data/config/metric/MetricMakerDictionary.java:111-114 | In a dictionary whose keys are all lower-case, as `add` keeps them by lower-casing every name it stores, looking up a stored key (which `findByName` lower-cases again, line 91) finds exactly the maker stored under it |
| `MetricMakers.MetricMakerDictionary.GetAll` | luthier/src/main/java/com/yahoo/luthier/webservice/data/config/metric/MetricMakerDictionary.java:99-101 | A maker is in the result iff some name maps to it, and there are never more makers than names |
| `MetricMakers.MetricMakerDictionary.Add` | luthier/src/main/java/com/yahoo/luthier/webservice/data/config/metric/MetricMakerDictionary.java:110-122 | Returns true iff the lower-cased name was not yet a key. The new map is `Register` of the old one: unchanged on false, extended on true. All keys stay lower-case. Afterwards `FindByName(name)` gives the new maker on true and the old answer on false. The concurrent-modification branch is proved unreachable |
| `MetricMakers.MetricMakerDictionary.AddAll` | luthier/src/main/java/com/yahoo/luthier/webservice/data/config/metric/MetricMakerDictionary.java:130-136 | Every element is added in order under its `toString`, with no short-circuit, so the new map is `RegisterAll` of the old one. Returns true iff some element's key was not in the old map, i.e. iff the dictionary changed. All keys stay lower-case |
| `MetricMakers.MetricMakerDictionary.Equals` | luthier/src/main/java/com/yahoo/luthier/webservice/data/config/metric/MetricMakerDictionary.java:148-158 | `equals` holds iff the two name-to-maker maps are equal; the same-object shortcut never changes the answer |
| `MetricMakers.EqualsIffSameMap` | luthier/src/main/java/com/yahoo/luthier/webservice/data/config/metric/MetricMakerDictionary.java:148-158 | Two dictionaries are equal iff their maps have the same names and the same maker under each name |
| `MetricMakers.ScanBackward` | luthier/src/main/java/com/yahoo/luthier/webservice/data/config/metric/MetricMakerDictionary.java:181-198 | The backward scan accepts a signature iff every parameter is dictionary-typed or named by the template, and the number of non-dictionary parameters equals the template's parameter count |
| `MetricMakers.FirstFit` | luthier/src/main/java/com/yahoo/luthier/webservice/data/config/metric/MetricMakerDictionary.java:179-204 | Gives the index of a fitting signature that no earlier signature precedes, or nothing when no signature fits |
| `MetricMakers.FindConstructor` | luthier/src/main/java/com/yahoo/luthier/webservice/data/config/metric/MetricMakerDictionary.java:167-205 | An unknown class gives no constructor. Otherwise the result is the first constructor that fits the template, taken in the order reflection lists them (`getDeclaredConstructors`, which Java leaves unspecified), or nothing when none fits |
| `ShardSpecs.IdOnlyFromJson` | fili-core/src/main/java/com/yahoo/bard/webservice/druid/model/metadata/IdOnlyShardSpec.java:34-41 | The JSON constructor makes an id-only record whose `getType` and `getPartitionNum` return the given type and number unchanged |
| `ShardSpecs.IdOnlyFromNone` | fili-core/src/main/java/com/yahoo/bard/webservice/druid/model/metadata/IdOnlyShardSpec.java:49-52 | Converting an unsharded spec gives type "none" and the spec's partition number |
| `ShardSpecs.IdOnlyFromShardSpec` | fili-core/src/main/java/com/yahoo/bard/webservice/druid/model/metadata/IdOnlyShardSpec.java:60-63 | Converting any other spec gives type "idOnly" (the code's tag, not the "other" of its doc comment) and the spec's partition number |
| `ShardSpecs.ConversionsDifferOnlyInType` | fili-core/src/main/java/com/yahoo/bard/webservice/druid/model/metadata/IdOnlyShardSpec.java:49-63 | The two conversions of one partition number give different records with the same number; the numbered conversion keeps that number too |
| `ShardSpecs.GetType` | fili-core/src/main/java/com/yahoo/bard/webservice/druid/model/metadata/IdOnlyShardSpec.java:70-72 | `getType`, on either record kind, answers the stored type: the record rebuilt from the answer and the other fields is the record itself |
| `ShardSpecs.GetPartitionNum` | fili-core/src/main/java/com/yahoo/bard/webservice/druid/model/metadata/IdOnlyShardSpec.java:89-92 | `getPartitionNum`, on either record kind, answers the stored number: the record rebuilt from the answer and the other fields is the record itself |
| `ShardSpecs.CreateChunk` | fili-core/src/main/java/com/yahoo/bard/webservice/druid/model/metadata/IdOnlyShardSpec.java:74-77 | Always fails with NotImplemented, for either record kind |
| `ShardSpecs.IsInChunk` | fili-core/src/main/java/com/yahoo/bard/webservice/druid/model/metadata/IdOnlyShardSpec.java:79-82 | Always fails with NotImplemented |
| `ShardSpecs.GetLookup` | fili-core/src/main/java/com/yahoo/bard/webservice/druid/model/metadata/IdOnlyShardSpec.java:94-97 | Always fails with NotImplemented |
| `ShardSpecs.NumberedFromJson` | fili-core/src/main/java/com/yahoo/bard/webservice/druid/model/metadata/NumberedShardSpec.java:26-34 | The JSON constructor makes a numbered record. The inherited getters return the given type and number, and `getPartitions` returns the given count |
| `ShardSpecs.GetPartitions` | fili-core/src/main/java/com/yahoo/bard/webservice/druid/model/metadata/NumberedShardSpec.java:53-55 | `getPartitions` of a numbered record answers the stored count: the record rebuilt from type, number and the answer is the record itself |
| `ShardSpecs.NumberedFromJsonUnchecked` | fili-core/src/main/java/com/yahoo/bard/webservice/druid/model/metadata/NumberedShardSpec.java:26-34 | The JSON constructor accepts a partition number that is not below the partition count |
| `ShardSpecs.NumberedFromNone` | fili-core/src/main/java/com/yahoo/bard/webservice/druid/model/metadata/NumberedShardSpec.java:43-46 | Converting an unsharded spec gives type "none" and the spec's number. Below the largest `int`, the count is that number plus one, so it exceeds the number. At the largest `int`, the count wraps to the smallest |
| `ShardSpecs.NumberedFromNoneZero` | fili-core/src/main/java/com/yahoo/bard/webservice/druid/model/metadata/NumberedShardSpec.java:37-46 | Unsharded partition 0 gives ("none", 0, 1), as the doc comment states |

## Findings

| source | as written | input that shows it | evidently intended | confidence | as-written member | corrected member |
|---|---|---|---|---|---|---|
| fili-core/src/main/java/com/yahoo/bard/webservice/table/resolver/DataSourceConstraint.java:181-183 | `withMetricIntersection` passes the old `allDimensions`, `allDimensionNames` and `allColumnNames` to the eight-argument constructor, so dropped metric names stay among the column names | a constraint on dimension `country` with metric names {added, deleted}, narrowed to {added}: "deleted" remains in `allColumnNames` | column names = dimension names ∪ the narrowed metric names, the relation that `generateAllColumnNames` (DataSourceConstraint.java:275-281) gives every constraint the constructors build, and that the "Calculated fields" group of fields (line 32) stands for; otherwise a narrowed constraint still asks a table for the columns it dropped | medium; not executed | `DataSourceConstraints.WithMetricIntersectionKeepsStaleName` | `DataSourceConstraints.WithMetricIntersectionRederived` |

## Left out

- The request constructor of `DataSourceConstraint` reads sets from the request and query classes, which are not part of this model. It amounts to `Create` applied to those sets.
- The internals of `ApiFilters`, `PhysicalTable` and its schema, and `Dimension` beyond its API name are opaque values here. These classes are not part of this model.
- Null arguments are not modelled. The `@NotNull` annotations are not checked at run time, and Dafny values cannot be null.
- `DataSourceConstraints.HashCode`: the hash codes of the field collections are abstract functions, because the element classes' `hashCode` is not part of this model. Only the `Objects.hash` combination is modelled exactly.
- The three-argument `MetricMakerDictionary` constructor and the reflective parts of `findConstructor` are left out. These are class loading, constructor listing, parameter-name discovery, `newInstance`, the `assert` and logging: foreign runtime calls. The class loader is a map from class names to signatures, and a missing class gives no constructor.
- `parseParams` is left out. It dispatches on runtime classes and parses numbers, floating point and enum names.
- `MetricMakerDictionary.toString` is left out: it is only string formatting. `MetricMakerDictionary.hashCode` is left out because it depends on the unseen `MetricMaker.hashCode`.
- The insertion order of the `LinkedHashMap` is not kept. Only `toString` observes it, and `getAll` copies the values into an unordered set.
- `MetricMakers.Lower`: it lower-cases only the ASCII letters A to Z. Full `Locale.ENGLISH` case mapping of other Unicode letters is not modelled.
- `MetricMakers.MetricMakerDictionary.Add`: concurrent loaders are not modelled, so the `ConcurrentModificationException` path is proved unreachable rather than modelled.
- A metric maker is an opaque value with an identity and the text of its `toString`.
- `IdOnlyShardSpec` and `NumberedShardSpec` do not override `equals` or `hashCode`, so Java compares them by identity. The datatype's `==` compares their fields instead; object identity is not modelled.
- Druid's `ShardSpec` and `NoneShardSpec` library types are each reduced to a partition number, and the Jackson annotations are left out.
- `DimensionConfigTemplate` is a deserialization holder, and `DruidWebServiceSelector` is an interface with no policy in the code. Neither is modelled.
