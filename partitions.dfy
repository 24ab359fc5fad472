/** `PartitionByMeta` of snippets/partitions.py: a table class declared with `partition_by`
    gets a `postgresql_partition_by` table argument, an empty `partitions` dictionary and a
    `create_partition` class method that creates each child partition class once, records
    that the child table depends on the parent, and registers the `ALTER TABLE ... ATTACH
    PARTITION` statement to run after the child table is created. SQLAlchemy's side of this
    (the metadata, table dependencies and `after_create` listeners) is a log the model appends to. */
module Partitions {
  import opened Python
  import opened PartitionRange

  predicate NoNewline(s: string)
  {
    forall i :: 0 <= i < |s| ==> s[i] != '\n'
  }

  /** `s[..end]` is matched by `.+_[0-9]{6}` from its start (`.` is any character but a newline). */
  predicate MatchesUpTo(s: string, end: nat)
    requires end <= |s|
  {
    end >= 8 && NoNewline(s[..end - 7]) && s[end - 7] == '_' && AllDigits(s[end - 6..end])
  }

  /** `re.match(IGNORE_TABLES_REGEX, s)` succeeds, for `IGNORE_TABLES_REGEX = r'.+_[0-9]{6}$'`;
      `$` matches at the end of the string or just before a final newline. */
  predicate MatchesIgnorePattern(s: string)
  {
    MatchesUpTo(s, |s|) || (|s| >= 1 && s[|s| - 1] == '\n' && MatchesUpTo(s, |s| - 1))
  }

  /** `get_partition_name`: `f'{cls_.__tablename__}_{suffix}'`. */
  function PartitionName(tablename: string, suffix: string): string
  {
    tablename + "_" + suffix
  }

  /** For a parent table named on one line, the name of a partition with an all-digit
      suffix matches the ignore pattern exactly when the suffix has six digits. */
  lemma PartitionNamesMatchIgnorePattern(tablename: string, suffix: string)
    requires tablename != [] && NoNewline(tablename) && AllDigits(suffix)
    ensures MatchesIgnorePattern(PartitionName(tablename, suffix)) <==> |suffix| == 6
  {
    var n := PartitionName(tablename, suffix);
    var t := |tablename|;
    assert n[t] == '_';
    if |suffix| == 6 {
      assert n[..t] == tablename;
      assert n[t + 1..] == suffix;
      assert MatchesUpTo(n, |n|);
    } else {
      if |suffix| > 6 {
        assert n[|n| - 7] == suffix[|suffix| - 7];
      } else if |n| >= 8 {
        assert n[|n| - 6..][t - (|n| - 6)] == '_';
      }
      assert !MatchesUpTo(n, |n|);
      if suffix != [] {
        assert n[|n| - 1] == suffix[|suffix| - 1];
      }
    }
  }

  /** Every label of a month up to year 9999 gives a partition name the pattern ignores. */
  lemma LabelNamesMatchIgnorePattern(tablename: string, ym: YearMonth)
    requires tablename != [] && NoNewline(tablename)
    requires ym.year <= 9999 && ym.month <= 99
    ensures MatchesIgnorePattern(PartitionName(tablename, Label(ym)))
  {
    LabelRoundTrip(ym);
    PartitionNamesMatchIgnorePattern(tablename, Label(ym));
  }

  function UpperChar(c: char): char
  {
    if 'a' <= c <= 'z' then (c as int - 'a' as int + 'A' as int) as char else c
  }

  /** `str.upper()` on ASCII text. */
  function Upper(s: string): string
  {
    seq(|s|, i requires 0 <= i < |s| => UpperChar(s[i]))
  }

  predicate IsLower(c: char)
  {
    'a' <= c <= 'z'
  }

  /** `a` and `b` are the same character, or the two cases of one ASCII letter. */
  predicate SameIgnoringCase(a: char, b: char)
  {
    a == b || (IsLower(a) && b == UpperChar(a)) || (IsLower(b) && a == UpperChar(b))
  }

  /** Upper-casing leaves no lower-case letter and keeps every other character. */
  lemma UpperHasNoLowercase(s: string)
    ensures |Upper(s)| == |s|
    ensures forall i :: 0 <= i < |s| ==> !IsLower(Upper(s)[i])
    ensures forall i :: 0 <= i < |s| && !IsLower(s[i]) ==> Upper(s)[i] == s[i]
  {
  }

  /** Two partition types give the same clause exactly when they differ only in the case
      of their ASCII letters. */
  lemma UpperIgnoresCase(s: string, t: string)
    ensures Upper(s) == Upper(t) <==> |s| == |t| && forall i :: 0 <= i < |s| ==> SameIgnoringCase(s[i], t[i])
  {
    if Upper(s) == Upper(t) {
      forall i | 0 <= i < |s|
        ensures SameIgnoringCase(s[i], t[i])
      {
        assert Upper(s)[i] == Upper(t)[i];
      }
    }
  }

  /** `f'{partition_type.upper()}({partition_by})'`. */
  function PartitionClause(partitionType: string, column: string): string
  {
    Upper(partitionType) + "(" + column + ")"
  }

  /** The argument of a table: `postgresql_partition_by=...`, or one the model does
      not look into (an index, say). */
  datatype TableArg = Declared(id: nat) | PartitionBy(clause: string)

  /** The `__table_args__` a class ends up with (snippets/partitions.py:61-71): unchanged
      without `partition_by`; otherwise the existing arguments followed by the partitioning
      clause. `None.upper()` raises AttributeError when `partition_type` is missing. */
  function PartitionTableArgs(tableArgs: seq<TableArg>, partitionBy: Option<string>, partitionType: Option<string>)
    : (r: Result<seq<TableArg>>)
    ensures partitionBy.None? ==> r == Ok(tableArgs)
    ensures partitionBy.Some? && partitionType.None? ==> r == Err(AttributeError)
    ensures partitionBy.Some? && partitionType.Some? ==>
              && r.Ok? && |r.value| == |tableArgs| + 1 && r.value[..|tableArgs|] == tableArgs
              && r.value[|tableArgs|] == PartitionBy(PartitionClause(partitionType.value, partitionBy.value))
  {
    match partitionBy
    case None => Ok(tableArgs)
    case Some(column) =>
      match partitionType
      case None => Err(AttributeError)
      case Some(kind) => Ok(tableArgs + [PartitionBy(PartitionClause(kind, column))])
  }

  /** The clause of the two declared tables, `partition_type='RANGE', partition_by='created'`;
      the type's case does not matter. */
  lemma RangeClause()
    ensures PartitionClause("RANGE", "created") == "RANGE(created)"
    ensures PartitionClause("range", "created") == "RANGE(created)"
  {
  }

  /** The statement registered for `after_create` on the child table, with the layout
      whitespace of the source's triple-quoted literal reduced to single spaces. */
  function AttachStatement(parent: string, child: string, bound: string): string
  {
    "ALTER TABLE " + parent + " ATTACH PARTITION " + child + " " + bound + ";"
  }

  /** `child.__table__.add_is_dependent_on(parent.__table__)`, by table name. */
  datatype Dependency = DependsOn(dependent: string, parent: string)

  /** `event.listen(table, 'after_create', DDL(statement))`. */
  datatype Listener = AfterCreate(table: string, statement: string)

  /** What SQLAlchemy is told: the tables declared in the metadata, the dependencies
      between them and the listeners. Each only grows. */
  class SchemaLog {
    var tables: seq<string>
    var dependencies: seq<Dependency>
    var listeners: seq<Listener>

    constructor ()
      ensures tables == [] && dependencies == [] && listeners == []
    {
      tables, dependencies, listeners := [], [], [];
    }

    /** The declarative metaclass creates the class's `Table` in the metadata. */
    method DeclareTable(tablename: string)
      modifies this
      ensures tables == old(tables) + [tablename]
      ensures dependencies == old(dependencies) && listeners == old(listeners)
    {
      tables := tables + [tablename];
    }

    method AddDependency(dependent: string, parent: string)
      modifies this
      ensures dependencies == old(dependencies) + [DependsOn(dependent, parent)]
      ensures tables == old(tables) && listeners == old(listeners)
    {
      dependencies := dependencies + [DependsOn(dependent, parent)];
    }

    method Listen(table: string, statement: string)
      modifies this
      ensures listeners == old(listeners) + [AfterCreate(table, statement)]
      ensures tables == old(tables) && dependencies == old(dependencies)
    {
      listeners := listeners + [AfterCreate(table, statement)];
    }
  }

  /** A table class created by PartitionByMeta. Only `partitions` changes after creation;
      it is empty and never used when the class was declared without `partition_by`. */
  class TableClass {
    const name: string
    const bases: seq<ClassId>
    const tablename: string
    const tableArgs: seq<TableArg>
    const partitionedBy: Option<string>
    var partitions: map<string, TableClass>

    /** `c` is the class `create_partition(suffix)` makes for this one. */
    predicate IsPartition(suffix: string, c: TableClass)
    {
      && c != this
      && c.name == name + suffix && c.bases == bases
      && c.tablename == PartitionName(tablename, suffix)
    }

    /** Only suffixes `get_partition_statement` accepts are stored, each under the class
        made for it. */
    ghost predicate Valid()
      reads this
    {
      && (partitionedBy.None? ==> partitions == map[])
      && forall k :: k in partitions ==> PartitionStatement(k).Ok? && IsPartition(k, partitions[k])
    }

    /** Every stored partition has its dependency on this table and its ATTACH statement
        in the log. */
    ghost predicate Attached(log: SchemaLog)
      reads this, log
    {
      forall k :: k in partitions ==>
        && DependsOn(partitions[k].tablename, tablename) in log.dependencies
        && PartitionStatement(k).Ok?
        && AfterCreate(partitions[k].tablename,
                       AttachStatement(tablename, partitions[k].tablename, PartitionStatement(k).value))
           in log.listeners
    }

    constructor (name: string, bases: seq<ClassId>, tablename: string, tableArgs: seq<TableArg>,
                 partitionedBy: Option<string>)
      ensures this.name == name && this.bases == bases && this.tablename == tablename
      ensures this.tableArgs == tableArgs && this.partitionedBy == partitionedBy
      ensures partitions == map[] && Valid()
    {
      this.name := name;
      this.bases := bases;
      this.tablename := tablename;
      this.tableArgs := tableArgs;
      this.partitionedBy := partitionedBy;
      partitions := map[];
    }

    /** `create_partition(suffix, subpartition_by, subpartition_type)`. The steps run in the
        source's order: the child class is created (declaring its table), the dependency is
        recorded, the bound clause is computed, the listener is registered, and the child is
        stored. A suffix `int()` rejects therefore fails AFTER the child table and its
        dependency were recorded, and before anything else. */
    method CreatePartition(suffix: string, subpartitionBy: Option<string>, subpartitionType: Option<string>,
                           log: SchemaLog) returns (r: Result<TableClass>)
      requires Valid() && partitionedBy.Some? && Attached(log)
      modifies this, log
      ensures Valid() && Attached(log)
      ensures suffix in old(partitions) ==>
                r == Ok(old(partitions)[suffix]) && partitions == old(partitions) && unchanged(log)
      ensures suffix !in old(partitions) && PartitionTableArgs([], subpartitionBy, subpartitionType).Err? ==>
                r == Err(AttributeError) && partitions == old(partitions) && unchanged(log)
      ensures suffix !in old(partitions) && PartitionTableArgs([], subpartitionBy, subpartitionType).Ok? ==>
                var child := PartitionName(tablename, suffix);
                && log.tables == old(log.tables) + [child]
                && log.dependencies == old(log.dependencies) + [DependsOn(child, tablename)]
                && (PartitionStatement(suffix).Err? ==>
                      && r == Err(ValueError) && partitions == old(partitions)
                      && log.listeners == old(log.listeners))
                && (PartitionStatement(suffix).Ok? ==>
                      && r.Ok? && fresh(r.value) && partitions == old(partitions)[suffix := r.value]
                      && IsPartition(suffix, r.value) && r.value.Valid() && r.value.partitions == map[]
                      && r.value.partitionedBy == subpartitionBy
                      && r.value.tableArgs == PartitionTableArgs([], subpartitionBy, subpartitionType).value
                      && log.listeners == old(log.listeners)
                           + [AfterCreate(child, AttachStatement(tablename, child, PartitionStatement(suffix).value))])
    {
      if suffix !in partitions {
        var created := DeclareClass(name + suffix, bases, PartitionName(tablename, suffix), [],
                                    subpartitionBy, subpartitionType, log);
        if created.Err? {
          return Err(created.error);
        }
        var partition := created.value;
        log.AddDependency(partition.tablename, tablename);
        var bound := PartitionStatement(suffix);
        if bound.Err? {
          return Err(bound.error);
        }
        log.Listen(partition.tablename, AttachStatement(tablename, partition.tablename, bound.value));
        partitions := partitions[suffix := partition];
      }
      r := Ok(partitions[suffix]);
    }
  }

  /** `PartitionByMeta.__new__(cls, clsname, bases, attrs, partition_by=..., partition_type=...)`
      for a class body that sets `__tablename__` and `__table_args__`. */
  method DeclareClass(name: string, bases: seq<ClassId>, tablename: string, tableArgs: seq<TableArg>,
                      partitionBy: Option<string>, partitionType: Option<string>, log: SchemaLog)
      returns (r: Result<TableClass>)
    modifies log
    ensures PartitionTableArgs(tableArgs, partitionBy, partitionType).Err? ==>
              r == Err(AttributeError) && unchanged(log)
    ensures PartitionTableArgs(tableArgs, partitionBy, partitionType).Ok? ==>
              && r.Ok? && fresh(r.value) && r.value.Valid() && r.value.partitions == map[]
              && r.value.name == name && r.value.bases == bases && r.value.tablename == tablename
              && r.value.tableArgs == PartitionTableArgs(tableArgs, partitionBy, partitionType).value
              && r.value.partitionedBy == partitionBy
              && log.tables == old(log.tables) + [tablename]
              && log.dependencies == old(log.dependencies) && log.listeners == old(log.listeners)
  {
    var args := PartitionTableArgs(tableArgs, partitionBy, partitionType);
    if args.Err? {
      return Err(args.error);
    }
    var cls := new TableClass(name, bases, tablename, args.value, partitionBy);
    log.DeclareTable(tablename);
    r := Ok(cls);
  }

  /** Asking twice for one month's partition gives the same class both times, and one
      table, one dependency and one ATTACH statement in all. */
  method CreatePartitionTwice(table: TableClass, suffix: string, log: SchemaLog)
      returns (first: Result<TableClass>, second: Result<TableClass>)
    requires table.Valid() && table.partitionedBy.Some? && table.Attached(log)
    requires suffix !in table.partitions && PartitionStatement(suffix).Ok?
    modifies table, log
    ensures first.Ok? && second == first
    ensures |log.tables| == |old(log.tables)| + 1
    ensures |log.dependencies| == |old(log.dependencies)| + 1
    ensures |log.listeners| == |old(log.listeners)| + 1
  {
    first := table.CreatePartition(suffix, None, None, log);
    second := table.CreatePartition(suffix, None, None, log);
  }
}
