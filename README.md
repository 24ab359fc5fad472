# Partitions, singletons and flyweights

A model of three small Python snippets and the properties they promise:

- `snippets/partitions.py`: monthly PostgreSQL range partitioning of SQLAlchemy tables.
  - `get_partition_statement` turns a `YYYYMM` suffix into a `FOR VALUES FROM (...) TO (...)` bound clause.
  - `get_partition_name` names a child table `<tablename>_<suffix>`.
  - `IGNORE_TABLES_REGEX` is meant to match those names.
  - The `partition_by` branch of `PartitionByMeta.__new__` adds a `postgresql_partition_by` table argument and a `partitions` dictionary.
  - `create_partition` creates each child partition class once. It records that the child depends on its parent and registers the `ALTER TABLE ... ATTACH PARTITION` statement.
- `snippets/singleton.py`: two singleton metaclasses.
  - `SingletonMeta` keys its instances on the class.
  - `ParentSingletonMeta` keys them on the class's last declared base.
  - Both build an instance only when the key is missing.
- `snippets/flyweight.py`: the `FlyweightMeta` metaclass and the `flyweight` class decorator. Both cache instances under a key made of the call's arguments, using `dict.setdefault`. The constructor therefore runs on every call, and on a hit its result is thrown away.

Layout:

- `python.dfy` (module `Python`): the Python values the snippets handle. It has positional and keyword arguments, classes with their bases, instances (`PyObject`, a class whose identity is object identity), and `Result`/`Option` with the two exceptions raised (`ValueError`, `AttributeError`).
- `cache.dfy` (module `Cache`): `dict.setdefault` as a function. It is the specification every singleton and flyweight `__call__` is proved against, together with the first-writer-wins property over a whole history of requests.
- `singleton.dfy`, `flyweight.dfy`: each registry is a class whose dictionary is a `map` field. Each `__call__` is a method whose new state and result are tied to `Cache.SetDefault`. A construction counter shows when an instance is built: only on a miss for the singletons, on every call for the flyweights.
- `partition_range.dfy` (module `PartitionRange`): `get_partition_statement` and the arithmetic it needs.
  - Python's `int()` on a digit string, `str()` and `:02d` formatting, with round-trip lemmas.
  - The month arithmetic.
  - The tiling of consecutive monthly ranges.
- `partition_examples.dfy` (module `PartitionExamples`): the docstring examples of `get_partition_statement`, and suffixes it accepts although they name no month.
- `partitions.dfy` (module `Partitions`):
  - the name pattern and the partition name;
  - the table arguments of `__new__`;
  - `TableClass` with its `partitions` map and `CreatePartition`;
  - `SchemaLog`, the record of what SQLAlchemy is told: declared tables, table dependencies and `after_create` listeners.

Behaviour that follows the code rather than the documented intent:

- `get_partition_statement` does not validate the suffix.
  - Month 13 gives a range from `2021-13-01` to `2021-01-01`.
  - The four-character suffix `"2021"` is read as year 2021, month 21, because `suffix[:4]` and `suffix[-2:]` overlap.
  - Only a suffix that `int()` rejects raises ValueError.
  - `suffix[:4]` and `suffix[-2:]` skip whatever lies between them, so `"2021-05"` gives the same clause as `"202105"`. `partitions` is keyed on the raw suffix, so one table can hold two children with identical bounds. The name `t_2021-05` also escapes `IGNORE_TABLES_REGEX`.
- `create_partition` declares the child class (and so its table) and records its dependency before it computes the bound clause. A suffix that raises ValueError therefore leaves the child table and the dependency recorded, with no listener, and nothing stored in `partitions`.
- The year is not zero-padded: the dates are ISO 8601 `YYYY-MM-DD` only for years 1000 to 9999.

## Model

| member | source | states |
|---|---|---|
| Cache.SetDefault | snippets/flyweight.py:12 | `dict.setdefault(k, v)`: afterwards `k` is present and maps to the returned value. No key is removed and no existing entry changes. The result is the stored value on a hit and `v` on a miss. |
| Cache.SetDefaultIdempotent | snippets/flyweight.py:21-23 | Repeating a get-or-create for the same key changes nothing and returns what the first request returned, whatever value the repeat offers. |
| Cache.ReplayFirstWins | snippets/singleton.py:15-18 | Over any sequence of get-or-create requests: no key is ever removed, and an entry already present is never replaced. A missing key is present afterwards exactly when some request offered it, and it then holds the value of the FIRST such request. |
| Singleton.SingletonMeta.constructor | snippets/singleton.py:8 | The class-level `_instances` dictionary starts empty. |
| Singleton.SingletonMeta.Call | snippets/singleton.py:10-18 | The new dictionary and the result are `setdefault` on the requesting class. On a hit nothing is built and the stored instance is returned, whatever the arguments. On a miss, one new instance of `cls` is built from these arguments and stored. Every entry stays an instance of its key, and the registry size equals the number of constructions. |
| Singleton.ParentSingletonMeta.constructor | snippets/singleton.py:4 | The module-level `_singleton_instances` starts empty. |
| Singleton.ParentSingletonMeta.Call | snippets/singleton.py:24-36 | The same as `SingletonMeta.Call`, keyed on the last declared base `cls.__bases__[-1]`. The class must have a base, as `[-1]` demands. Each entry is an instance of a class whose last base is its key. |
| Singleton.RepeatedRequest | snippets/singleton.py:11-18 | Two requests for a new class with different arguments return the same object, built once from the FIRST arguments. Only that class's entry is added. |
| Singleton.FamilyRequests | snippets/singleton.py:29-36 | Two siblings with the same last base share the instance of whichever was requested first. A class with a different last base gets a distinct instance under its own key. |
| Flyweight.KwargsItems | snippets/flyweight.py:10 | `tuple(kwargs.items())` has one item per keyword argument: the `(name, value)` pair of each, in the order they were passed. |
| Flyweight.KwargsItemsInjective | snippets/flyweight.py:10 | Equal item tuples come from exactly equal keyword sequences, order included. |
| Flyweight.MetaKeyInjective | snippets/flyweight.py:10 | Two calls hit the same `FlyweightMeta` cache entry if and only if their positional arguments are equal and their keyword arguments are equal, in the same order. |
| Flyweight.DecoratorKeyInjective | snippets/flyweight.py:22 | The same for the decorator's nested key `(args, tuple(kargs.items()))`. |
| Flyweight.KeywordOrderMatters | snippets/flyweight.py:10 | `C(x=1, y=2)` and `C(y=2, x=1)` give different keys, for both caches. |
| Flyweight.FlyweightClass.constructor | snippets/flyweight.py:4-7 | Each class created by the metaclass gets a new, empty cache of its own. |
| Flyweight.FlyweightClass.Call | snippets/flyweight.py:9-12 | The new cache and the result are `setdefault` on the key `(*args, tuple(kwargs.items()))`. An instance is built on every call, hit or miss. The result always belongs to this class and carries exactly the requested arguments. On a miss it is the instance just built. |
| Flyweight.SeparateCaches | snippets/flyweight.py:4-12 | Instances cached by two different classes are never the same object, even under equal keys. |
| Flyweight.FlyweightDecorator.constructor | snippets/flyweight.py:15-18 | `flyweight(cls)` wraps `cls` with an empty `_instances` dictionary. |
| Flyweight.FlyweightDecorator.Call | snippets/flyweight.py:20-23 | The same as `FlyweightClass.Call`, for the nested key `(args, tuple(kargs.items()))`. |
| Flyweight.RepeatedCall | snippets/flyweight.py:9-12 | Two equal calls return the identical object, build two instances, and add at most one cache entry. |
| PartitionRange.ParseInt | snippets/partitions.py:15-16 | `int()` succeeds exactly on a non-empty string of digits. |
| PartitionRange.DecimalRoundTrip | snippets/partitions.py:19 | Reading back the numeral `f'{n}'` gives `n`. |
| PartitionRange.DecimalLength | snippets/partitions.py:19 | The numeral of `n` has at most `k` digits exactly when `n < 10^k`. |
| PartitionRange.LeadingZeros | snippets/partitions.py:19 | Leading zeros do not change the value of a numeral. |
| PartitionRange.PadRoundTrip | snippets/partitions.py:19 | `f'{n:0{width}d}'` of a number below `10^width` is exactly `width` digits long and reads back as `n`. |
| PartitionRange.ParseSuffix | snippets/partitions.py:15-16 | Parsing succeeds exactly when both `suffix[:4]` and `suffix[-2:]` are digit strings. Every failure is ValueError. |
| PartitionRange.PartitionStatement | snippets/partitions.py:15-16 | `get_partition_statement` raises exactly when `int()` rejects `suffix[:4]` or `suffix[-2:]`, and then raises ValueError. |
| PartitionRange.LabelRoundTrip | snippets/partitions.py:15-16 | A `YYYYMM` label is six digits and parses back to its year and month. |
| PartitionRange.StatementOfLabel | snippets/partitions.py:15-19 | The statement of a `YYYYMM` label runs from the first of its month to the first of the next. That is the same year for months below 12 and January of the next year for December. A month above 12 is not rejected and ends on January of the same year. |
| PartitionRange.RangesTile | snippets/partitions.py:17-19 | For consecutive months, the TO date of one statement is the FROM date of the next. |
| PartitionRange.NextMonthIsOneLater | snippets/partitions.py:17-18 | A valid month's range is exactly one calendar month wide and ends on a valid month. |
| PartitionRange.MonthIndexInjective | snippets/partitions.py:15-16 | Different valid year-month pairs name different calendar months. |
| PartitionRange.RangesDisjoint | snippets/partitions.py:17-19 | The half-open ranges of two different valid months do not overlap. |
| PartitionRange.UncheckedMonthRunsBackwards | snippets/partitions.py:17-18 | A month above 12 is not rejected. Its range ends on January 1st of the SAME year, before it starts. |
| PartitionRange.FormatDateIsIso | snippets/partitions.py:19 | A formatted date is ten characters long exactly when the year has four digits. It then has the shape `YYYY-MM-01`, with the year and month reading back. It is an ISO 8601 calendar date exactly when the month is 1 to 12. |
| PartitionExamples.DocstringExamples | snippets/partitions.py:6-13 | The four docstring examples give exactly the documented clauses. |
| PartitionExamples.Example202005 | snippets/partitions.py:6-7 | `'202005'` gives `FOR VALUES FROM ('2020-05-01') TO ('2020-06-01')`. |
| PartitionExamples.Example202112 | snippets/partitions.py:8-9 | `'202112'` rolls over to `TO ('2022-01-01')`. |
| PartitionExamples.Example202101 | snippets/partitions.py:10-11 | `'202101'` gives `FOR VALUES FROM ('2021-01-01') TO ('2021-02-01')`. |
| PartitionExamples.Example202111 | snippets/partitions.py:12-13 | `'202111'` gives `FOR VALUES FROM ('2021-11-01') TO ('2021-12-01')`. |
| PartitionExamples.UncheckedSuffixes | snippets/partitions.py:15-18 | `'202113'` and `'2021'` are accepted, with ranges that end before they start. `'abcdef'` raises ValueError. |
| PartitionExamples.Example202113 | snippets/partitions.py:15-18 | `'202113'` gives `FROM ('2021-13-01') TO ('2021-01-01')`. |
| PartitionExamples.Example2021 | snippets/partitions.py:15-19 | `'2021'` gives `FROM ('2021-21-01') TO ('2021-01-01')`. |
| PartitionExamples.ShortSuffixParses | snippets/partitions.py:15-16 | `'2021'` is read as year 2021, month 21. |
| PartitionExamples.ExampleLetters | snippets/partitions.py:15 | A suffix of letters raises ValueError. |
| PartitionExamples.SeparatedSuffix | snippets/partitions.py:15-16 | `'2021-05'` parses as May 2021 and gives the same clause as `'202105'`. Its partition name `t_2021-05` does not match the ignore pattern. |
| Partitions.PartitionNamesMatchIgnorePattern | snippets/partitions.py:1-27 | For a non-empty one-line parent table name and an all-digit suffix, the partition name matches `.+_[0-9]{6}$` if and only if the suffix has six digits. |
| Partitions.LabelNamesMatchIgnorePattern | snippets/partitions.py:26-35 | The partition name of every `YYYYMM` label matches the ignore pattern. |
| Partitions.UpperHasNoLowercase | snippets/partitions.py:65 | `str.upper()` keeps the length, leaves no lower-case letter and keeps every character that is not a lower-case letter. |
| Partitions.UpperIgnoresCase | snippets/partitions.py:65 | Two partition types upper-case to the same text if and only if they have the same length and differ only in the case of ASCII letters. |
| Partitions.PartitionTableArgs | snippets/partitions.py:61-71 | Without `partition_by` the table arguments are unchanged. With it, they are the existing ones followed by `postgresql_partition_by='<TYPE>(<column>)'`. A missing `partition_type` raises AttributeError. |
| Partitions.RangeClause | snippets/partitions.py:65 | `partition_type='RANGE'` (or `'range'`) with `partition_by='created'` gives `RANGE(created)`. |
| Partitions.SchemaLog.constructor | snippets/partitions.py:22-73 | Nothing has been declared, depended on or listened for yet. |
| Partitions.SchemaLog.DeclareTable | snippets/partitions.py:73 | Declaring a class adds its table and nothing else. |
| Partitions.SchemaLog.AddDependency | snippets/partitions.py:40 | `add_is_dependent_on` adds one dependency and nothing else. |
| Partitions.SchemaLog.Listen | snippets/partitions.py:42-55 | `event.listen(..., 'after_create', DDL(...))` adds one listener and nothing else. |
| Partitions.TableClass.constructor | snippets/partitions.py:61-73 | A new table class has an empty `partitions` map. |
| Partitions.TableClass.CreatePartition | snippets/partitions.py:29-59 | A stored suffix returns the stored child and records nothing. A new suffix declares the child `<clsname><suffix>` with table `<tablename>_<suffix>` and records that it depends on the parent. If the bound clause parses, one `ALTER TABLE <parent> ATTACH PARTITION <child> <clause>;` listener is registered and the child is stored under the suffix, other entries unchanged, and returned. A suffix `int()` rejects raises ValueError after the table and dependency were recorded. A sub-partition column without a type raises AttributeError before anything is recorded. Every stored child stays attached. |
| Partitions.DeclareClass | snippets/partitions.py:61-73 | `PartitionByMeta.__new__` gives a class with the computed table arguments, an empty `partitions` map and its table declared, or raises AttributeError and declares nothing. |
| Partitions.CreatePartitionTwice | snippets/partitions.py:31-59 | Asking twice for a new month's partition returns the same class both times, and records one table, one dependency and one DDL statement in all. |

## Left out

- SQLAlchemy itself is not part of this model: `DeclarativeMeta` class creation, `Table` metadata, `add_is_dependent_on`, `event.listen` and `DDL`. Their effects are entries appended to `SchemaLog`. Errors SQLAlchemy would raise are not modelled, such as declaring the same table twice when a suffix that failed with ValueError is retried.
- The ATTACH statement's layout whitespace from the triple-quoted literal is reduced to single spaces.
- `IGNORE_TABLES_REGEX` is modelled as used with `re.match`; the code that applies it is not part of this model.
- `int()` is modelled only on ASCII digit strings. Signs, surrounding whitespace, underscores and non-ASCII digits, which Python also accepts, are treated as ValueError.
- `str.upper()` is modelled on ASCII letters only.
- Weak references: `WeakKeyDictionary` and `WeakValueDictionary` are modelled as plain dictionaries, and garbage collection never removes an entry. As written, the metaclass cache cannot store tuple keys (tuples are not weak-referenceable), and `WeakValueDictionary` is not imported in `snippets/flyweight.py`.
- Partitions.PartitionTableArgs: `__table_args__` given as a dict, which SQLAlchemy also accepts, is not modelled. There `attrs.get('__table_args__', ()) + (dict(...),)` raises TypeError; the model takes the tuple form only.
- Unhashable arguments (a list or a dict) to a flyweight call are not modelled. There `setdefault` raises TypeError after the instance was built, and the cache is unchanged. Cache keys here are always hashable values.
- Python equality across types in cache keys (`1 == 1.0 == True`) is not modelled. Keys are compared structurally over integers, strings and tuples.
- Constructors and `__init__` are assumed not to raise. What an instance's `__init__` does with the arguments is not modelled; an instance records the class and arguments it was built from.
- A subclass that shadows `SingletonMeta._instances` with a class attribute of its own is not modelled; all classes share the metaclass's one dictionary.
- `ABCParentSingletonMeta` is not modelled: it only combines `ParentSingletonMeta` with `abc.ABCMeta`.
- `EnumWrapper`, `EventType`, the column mixins and the `Message`/`Event` declarations are not modelled: they are schema declarations without logic.
- Concurrency is not modelled; the snippets have no locking.
