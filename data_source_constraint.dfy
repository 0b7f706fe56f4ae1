/** The immutable request constraint used to pick the physical tables that can
    answer a query: five direct fields (request, filter and metric dimensions,
    metric names, API filters) and three sets derived from them (all
    dimensions, their API names, all column names). */
module DataSourceConstraints {
  import opened JavaInt

  /** A dimension of the catalog. Only its API name matters to the constraint;
      the other attributes make two distinct dimensions able to share an API
      name, so `apiName` is not assumed to be injective. */
  datatype Dimension = Dimension(apiName: string, longName: string, description: string, category: string)

  /** One filter clause of a request. Its internals belong to the request
      layer and are kept opaque. */
  datatype ApiFilter = ApiFilter(operation: string, values: set<string>)

  /** The request's filters: each filtered dimension with its filter clauses. */
  type ApiFilters = map<Dimension, set<ApiFilter>>

  /** A physical table as the constraint sees it: its dimensions, the metric
      column names of its schema and all column names of its schema. */
  datatype PhysicalTable = PhysicalTable(dimensions: set<Dimension>, metricColumnNames: set<string>, columnNames: set<string>)

  /** The constraint value. The datatype constructor takes all eight fields
      as given, which is what the eight-argument constructor does: nothing ties
      the derived fields to the direct ones unless `Consistent` holds. */
  datatype DataSourceConstraint = DataSourceConstraint(
    requestDimensions: set<Dimension>,
    filterDimensions: set<Dimension>,
    metricDimensions: set<Dimension>,
    metricNames: set<string>,
    allDimensions: set<Dimension>,
    allDimensionNames: set<string>,
    allColumnNames: set<string>,
    apiFilters: ApiFilters)

  /** The image of a set of dimensions under `apiName`. */
  function ApiNames(dimensions: set<Dimension>): set<string>
  {
    set d | d in dimensions :: d.apiName
  }

  /** The derived sets agree with the direct fields. */
  ghost predicate Consistent(c: DataSourceConstraint)
  {
    && c.allDimensions == c.requestDimensions + c.filterDimensions + c.metricDimensions
    && c.allDimensionNames == ApiNames(c.allDimensions)
    && c.allColumnNames == c.allDimensionNames + c.metricNames
  }

  // ---------------------------------------------------------------------------
  // Derived sets
  // ---------------------------------------------------------------------------

  /** All dimensions: every dimension of the three direct dimension sets and
      nothing else. There are at most as many as the three sets hold together. */
  function GenerateAllDimensions(requestDimensions: set<Dimension>, filterDimensions: set<Dimension>, metricDimensions: set<Dimension>): (r: set<Dimension>)
    ensures forall d :: d in r <==> d in requestDimensions || d in filterDimensions || d in metricDimensions
    ensures |r| <= |requestDimensions| + |filterDimensions| + |metricDimensions|
  {
    requestDimensions + filterDimensions + metricDimensions
  }

  /** All dimension names: a name is present iff some dimension carries it as
      its API name. Since API names may coincide, there can be fewer names than
      dimensions, never more. */
  function GenerateAllDimensionNames(allDimensions: set<Dimension>): (r: set<string>)
    ensures forall n :: n in r <==> exists d :: d in allDimensions && d.apiName == n
    ensures forall d :: d in allDimensions ==> d.apiName in r
    ensures |r| <= |allDimensions|
  {
    ApiNamesSize(allDimensions);
    ApiNames(allDimensions)
  }

  /** All column names: the dimension names together with the metric names. */
  function GenerateAllColumnNames(allDimensionNames: set<string>, metricNames: set<string>): (r: set<string>)
    ensures forall n :: n in r <==> n in allDimensionNames || n in metricNames
    ensures |r| <= |allDimensionNames| + |metricNames|
  {
    allDimensionNames + metricNames
  }

  /** Mapping dimensions to their API names never yields more names than
      there were dimensions. */
  lemma {:induction false} ApiNamesSize(dimensions: set<Dimension>)
    ensures |ApiNames(dimensions)| <= |dimensions|
  {
    if dimensions != {} {
      var d :| d in dimensions;
      var rest := dimensions - {d};
      ApiNamesSize(rest);
      assert ApiNames(dimensions) == ApiNames(rest) + {d.apiName};
    }
  }

  /** Two different dimensions sharing an API name collapse into one name. */
  lemma ApiNamesCollapse(a: Dimension, b: Dimension)
    requires a != b && a.apiName == b.apiName
    ensures |ApiNames({a, b})| < |{a, b}|
  {
    assert ApiNames({a, b}) == {a.apiName};
  }

  /** API names distribute over set union. */
  lemma ApiNamesUnion(a: set<Dimension>, b: set<Dimension>)
    ensures ApiNames(a + b) == ApiNames(a) + ApiNames(b)
  {
  }

  // ---------------------------------------------------------------------------
  // Constructors
  // ---------------------------------------------------------------------------

  /** The five-argument constructor: stores the direct fields and derives the
      three calculated sets from them. */
  function Create(requestDimensions: set<Dimension>, filterDimensions: set<Dimension>, metricDimensions: set<Dimension>,
                  metricNames: set<string>, apiFilters: ApiFilters): (c: DataSourceConstraint)
    ensures c.requestDimensions == requestDimensions && c.filterDimensions == filterDimensions
    ensures c.metricDimensions == metricDimensions && c.metricNames == metricNames && c.apiFilters == apiFilters
    ensures Consistent(c)
  {
    var allDimensions := GenerateAllDimensions(requestDimensions, filterDimensions, metricDimensions);
    var allDimensionNames := GenerateAllDimensionNames(allDimensions);
    var allColumnNames := GenerateAllColumnNames(allDimensionNames, metricNames);
    DataSourceConstraint(requestDimensions, filterDimensions, metricDimensions, metricNames,
                         allDimensions, allDimensionNames, allColumnNames, apiFilters)
  }

  /** A constraint is consistent exactly when it is what the five-argument
      constructor makes of its own direct fields. */
  lemma ConsistentIffCreated(c: DataSourceConstraint)
    ensures Consistent(c) <==> c == Create(c.requestDimensions, c.filterDimensions, c.metricDimensions, c.metricNames, c.apiFilters)
  {
  }

  /** The copy constructor: all eight fields are taken from the source. */
  function Copy(source: DataSourceConstraint): (c: DataSourceConstraint)
    ensures c == source && Equals(c, source)
    ensures c.allDimensions == source.allDimensions && c.allDimensionNames == source.allDimensionNames
    ensures c.allColumnNames == source.allColumnNames
    ensures Consistent(source) ==> Consistent(c)
  {
    DataSourceConstraint(source.requestDimensions, source.filterDimensions, source.metricDimensions,
                         source.metricNames, source.allDimensions, source.allDimensionNames,
                         source.allColumnNames, source.apiFilters)
  }

  // ---------------------------------------------------------------------------
  // Operations
  // ---------------------------------------------------------------------------

  /** Narrows the metric names to those also in `metricNames`. The other four
      direct fields are kept, and so are the three derived sets: they are
      copied, not derived again, so `allColumnNames` may still hold metric
      names that were dropped. */
  function WithMetricIntersection(c: DataSourceConstraint, metricNames: set<string>): (r: DataSourceConstraint)
    ensures forall n :: n in r.metricNames <==> n in metricNames && n in c.metricNames
    ensures r.metricNames <= c.metricNames
    ensures r.requestDimensions == c.requestDimensions && r.filterDimensions == c.filterDimensions
    ensures r.metricDimensions == c.metricDimensions && r.apiFilters == c.apiFilters
    ensures r.allDimensions == c.allDimensions && r.allDimensionNames == c.allDimensionNames
    ensures r.allColumnNames == c.allColumnNames
  {
    var kept := set n | n in metricNames && n in c.metricNames;
    DataSourceConstraint(c.requestDimensions, c.filterDimensions, c.metricDimensions, kept,
                         c.allDimensions, c.allDimensionNames, c.allColumnNames, c.apiFilters)
  }

  /** A constraint that does not filter away any part of `table`: the table's
      dimensions are requested, its metric columns are the metric names, and
      there are no filter or metric dimensions and no filters. The derived
      sets come from the table: its dimensions, their API names, and its
      schema's column names, whatever those are. */
  function Unconstrained(table: PhysicalTable): (c: DataSourceConstraint)
    ensures c.requestDimensions == table.dimensions && c.filterDimensions == {} && c.metricDimensions == {}
    ensures c.metricNames == table.metricColumnNames && c.apiFilters == map[]
    ensures c.allDimensions == table.dimensions
    ensures forall n :: n in c.allDimensionNames <==> exists d :: d in table.dimensions && d.apiName == n
    ensures c.allColumnNames == table.columnNames
  {
    DataSourceConstraint(table.dimensions, {}, {}, table.metricColumnNames,
                         table.dimensions, ApiNames(table.dimensions), table.columnNames, map[])
  }

  /** `equals`: the same object, or the same five direct fields. The derived
      fields take no part. */
  predicate Equals(a: DataSourceConstraint, b: DataSourceConstraint)
    ensures Equals(a, b) <==> (&& a.requestDimensions == b.requestDimensions
                               && a.filterDimensions == b.filterDimensions
                               && a.metricDimensions == b.metricDimensions
                               && a.metricNames == b.metricNames
                               && a.apiFilters == b.apiFilters)
  {
    || a == b
    || (&& a.requestDimensions == b.requestDimensions
        && a.filterDimensions == b.filterDimensions
        && a.metricDimensions == b.metricDimensions
        && a.metricNames == b.metricNames
        && a.apiFilters == b.apiFilters)
  }

  /** The hash codes the Java collections give to the field types, abstractly. */
  datatype FieldHashes = FieldHashes(dimensions: set<Dimension> -> int32, names: set<string> -> int32, filters: ApiFilters -> int32)

  /** `Objects.hash` over a sequence of hash codes: start from 1 and fold
      `31 * result + h` left to right in 32-bit arithmetic. */
  function ObjectsHash(hashes: seq<int32>): (r: int32)
    ensures hashes == [] ==> r == 1
    ensures (r as int - PolynomialHash(hashes)) % MODULUS == 0
  {
    if hashes == [] then 1
    else
      var prev := ObjectsHash(hashes[..|hashes| - 1]);
      ObjectsHashStep(prev, PolynomialHash(hashes[..|hashes| - 1]), hashes[|hashes| - 1]);
      Add(Mul(31, prev), hashes[|hashes| - 1])
  }

  /** One step of the fold keeps the running hash congruent to the exact
      polynomial. */
  lemma ObjectsHashStep(prev: int32, exact: int, last: int32)
    requires (prev as int - exact) % MODULUS == 0
    ensures (Add(Mul(31, prev), last) as int - (31 * exact + last as int)) % MODULUS == 0
  {
    var a := Mul(31, prev);
    var r := Add(a, last);
    CongruentScale(31, prev as int, exact);
    CongruentTrans(a as int, 31 * prev as int, 31 * exact);
    CongruentTrans(r as int, a as int + last as int, 31 * exact + last as int);
  }

  /** The polynomial of five hashes, written out. */
  lemma PolynomialHashFive(h1: int32, h2: int32, h3: int32, h4: int32, h5: int32)
    ensures PolynomialHash([h1, h2, h3, h4, h5])
            == 28629151 + 923521 * h1 as int + 29791 * h2 as int + 961 * h3 as int + 31 * h4 as int + h5 as int
  {
    assert [h1][..0] == [];
    assert PolynomialHash([h1]) == 31 + h1 as int;
    assert [h1, h2][..1] == [h1];
    assert PolynomialHash([h1, h2]) == 961 + 31 * h1 as int + h2 as int;
    assert [h1, h2, h3][..2] == [h1, h2];
    assert PolynomialHash([h1, h2, h3]) == 29791 + 961 * h1 as int + 31 * h2 as int + h3 as int;
    assert [h1, h2, h3, h4][..3] == [h1, h2, h3];
    assert PolynomialHash([h1, h2, h3, h4]) == 923521 + 29791 * h1 as int + 961 * h2 as int + 31 * h3 as int + h4 as int;
    assert [h1, h2, h3, h4, h5][..4] == [h1, h2, h3, h4];
  }

  /** The value `Arrays.hashCode` documents, in exact integers:
      31^n + the sum of `hashes[i] * 31^(n-1-i)`. */
  function PolynomialHash(hashes: seq<int32>): int
  {
    if hashes == [] then 1
    else 31 * PolynomialHash(hashes[..|hashes| - 1]) + hashes[|hashes| - 1] as int
  }

  /** `hashCode`: `Objects.hash` of the five direct fields. */
  function HashCode(c: DataSourceConstraint, h: FieldHashes): (r: int32)
    ensures var h1, h2, h3 := h.dimensions(c.requestDimensions), h.dimensions(c.filterDimensions), h.dimensions(c.metricDimensions);
            var h4, h5 := h.names(c.metricNames), h.filters(c.apiFilters);
            (r as int - (28629151 + 923521 * h1 as int + 29791 * h2 as int + 961 * h3 as int + 31 * h4 as int + h5 as int)) % MODULUS == 0
  {
    PolynomialHashFive(h.dimensions(c.requestDimensions), h.dimensions(c.filterDimensions), h.dimensions(c.metricDimensions),
                       h.names(c.metricNames), h.filters(c.apiFilters));
    ObjectsHash([h.dimensions(c.requestDimensions), h.dimensions(c.filterDimensions), h.dimensions(c.metricDimensions),
                 h.names(c.metricNames), h.filters(c.apiFilters)])
  }

  // ---------------------------------------------------------------------------
  // Properties
  // ---------------------------------------------------------------------------

  /** `Equals` is an equivalence relation. */
  lemma EqualsIsEquivalence(a: DataSourceConstraint, b: DataSourceConstraint, c: DataSourceConstraint)
    ensures Equals(a, a)
    ensures Equals(a, b) ==> Equals(b, a)
    ensures Equals(a, b) && Equals(b, c) ==> Equals(a, c)
  {
  }

  /** Equal constraints have equal hash codes, whatever their derived sets. */
  lemma EqualsImpliesEqualHashCode(a: DataSourceConstraint, b: DataSourceConstraint, h: FieldHashes)
    requires Equals(a, b)
    ensures HashCode(a, h) == HashCode(b, h)
  {
  }

  /** Equality ignores the derived sets: two constraints that differ only in
      them are equal, though not identical. */
  lemma EqualsIgnoresDerivedSets(c: DataSourceConstraint, extra: string)
    requires extra !in c.allColumnNames
    ensures Equals(c, c.(allColumnNames := c.allColumnNames + {extra}))
    ensures c != c.(allColumnNames := c.allColumnNames + {extra})
  {
  }

  /** Among consistent constraints, `Equals` is identity: the derived sets are
      functions of the direct fields. */
  lemma ConsistentEqualsIsIdentity(a: DataSourceConstraint, b: DataSourceConstraint)
    requires Consistent(a) && Consistent(b)
    ensures Equals(a, b) <==> a == b
  {
  }

  /** Narrowing twice with the same names changes nothing further. */
  lemma WithMetricIntersectionIdempotent(c: DataSourceConstraint, s: set<string>)
    ensures WithMetricIntersection(WithMetricIntersection(c, s), s) == WithMetricIntersection(c, s)
    ensures Equals(WithMetricIntersection(WithMetricIntersection(c, s), s), WithMetricIntersection(c, s))
  {
  }

  /** Narrowing by `s` then `t` is narrowing by their intersection, so the
      order of the two narrowings does not matter. */
  lemma WithMetricIntersectionComposes(c: DataSourceConstraint, s: set<string>, t: set<string>)
    ensures WithMetricIntersection(WithMetricIntersection(c, s), t) == WithMetricIntersection(c, s * t)
    ensures WithMetricIntersection(WithMetricIntersection(c, s), t) == WithMetricIntersection(WithMetricIntersection(c, t), s)
  {
  }

  /** Narrowing a consistent constraint keeps every column it now needs among
      its column names. */
  lemma WithMetricIntersectionCoversColumns(c: DataSourceConstraint, s: set<string>)
    requires Consistent(c)
    ensures WithMetricIntersection(c, s).allDimensionNames + WithMetricIntersection(c, s).metricNames
            <= WithMetricIntersection(c, s).allColumnNames
  {
  }

  /** Narrowing a consistent constraint stays consistent exactly when every
      dropped metric name is also a dimension name, i.e. when no stale metric
      name is left in `allColumnNames`. */
  lemma WithMetricIntersectionConsistentIff(c: DataSourceConstraint, s: set<string>)
    requires Consistent(c)
    ensures Consistent(WithMetricIntersection(c, s)) <==> c.metricNames - s <= c.allDimensionNames
  {
  }

  /** An input that shows the stale column names: narrowing {"added",
      "deleted"} to {"added"} leaves "deleted" among the column names. */
  lemma WithMetricIntersectionKeepsStaleName()
    ensures var country := Dimension("country", "Country", "", "");
            var c := Create({country}, {}, {}, {"added", "deleted"}, map[]);
            var r := WithMetricIntersection(c, {"added"});
            && "deleted" in r.allColumnNames
            && "deleted" !in r.allDimensionNames + r.metricNames
            && !Consistent(r)
  {
  }

  /** The narrowing as the constraint's own invariant asks for it: the new
      metric names, with the derived sets computed again by the five-argument
      constructor. */
  function WithMetricIntersectionRederived(c: DataSourceConstraint, metricNames: set<string>): (r: DataSourceConstraint)
    ensures Equals(r, WithMetricIntersection(c, metricNames))
    ensures Consistent(r)
    ensures Consistent(c) ==> r.allDimensions == c.allDimensions && r.allDimensionNames == c.allDimensionNames
    ensures Consistent(c) ==> r.allColumnNames == c.allDimensionNames + (metricNames * c.metricNames)
  {
    Create(c.requestDimensions, c.filterDimensions, c.metricDimensions,
           (set n | n in metricNames && n in c.metricNames), c.apiFilters)
  }

  /** The rederived narrowing is idempotent and composes like the original. */
  lemma WithMetricIntersectionRederivedComposes(c: DataSourceConstraint, s: set<string>, t: set<string>)
    ensures WithMetricIntersectionRederived(WithMetricIntersectionRederived(c, s), t) == WithMetricIntersectionRederived(c, s * t)
    ensures WithMetricIntersectionRederived(WithMetricIntersectionRederived(c, s), s) == WithMetricIntersectionRederived(c, s)
  {
  }

  /** The unconstrained constraint of a table is consistent exactly when the
      table's schema columns are its dimension API names plus its metric
      columns. */
  lemma UnconstrainedConsistentIff(table: PhysicalTable)
    ensures Consistent(Unconstrained(table)) <==> table.columnNames == ApiNames(table.dimensions) + table.metricColumnNames
  {
  }
}
