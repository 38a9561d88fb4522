// The row-to-object mapping of src/database/DatabaseMapper.ts.
module DatabaseMapper {
  import opened Wrappers
  import opened JsSemantics

  /**
   * One entry of the property list: a column name, or a mapping object whose keys are result
   * fields and whose values are columns (in key order).
   */
  datatype Property = Column(name: string) | Mapping(fields: seq<(string, string)>)

  /** The result field a property writes: the column name as given, or the mapping's first key. */
  function Target(p: Property): (key: string)
    ensures p.Column? ==> key == p.name
    ensures p.Mapping? && |p.fields| > 0 ==> key == p.fields[0].0
    ensures p.Mapping? && |p.fields| == 0 ==> key == "undefined"
  {
    match p
    case Column(name) => name
    case Mapping(fields) => PropertyKey(if |fields| > 0 then Some(fields[0].0) else None)
  }

  /**
   * The column a property reads: the column name in lower case, or the column the mapping's
   * first key names. An empty mapping reads `property[undefined]`, which is undefined, so it
   * reads the column "undefined".
   */
  function Source(p: Property): (column: string)
    ensures p.Column? ==> column == ToLowerCase(p.name)
    ensures p.Mapping? && |p.fields| > 0 ==> column == p.fields[0].1
    ensures p.Mapping? && |p.fields| == 0 ==> column == "undefined"
  {
    match p
    case Column(name) => ToLowerCase(name)
    case Mapping(fields) => PropertyKey(if |fields| > 0 then Some(fields[0].1) else None)
  }

  /** No property after position i writes the same field as property i. */
  ghost predicate LastWriter(props: seq<Property>, i: int)
    requires 0 <= i < |props|
  {
    forall j :: i < j < |props| ==> Target(props[j]) != Target(props[i])
  }

  class DatabaseMapper<V> {
    /** The row; it is only read. */
    const databaseObject: map<string, V>

    constructor(databaseObject: map<string, V>)
      ensures this.databaseObject == databaseObject
    {
      this.databaseObject := databaseObject;
    }

    /** `row[column]`, undefined when the row has no such column. */
    function Read(column: string): Option<V> {
      if column in databaseObject then Some(databaseObject[column]) else None
    }

    /**
     * properties: an object whose keys are exactly the targets of the list, each holding
     * the value read by the last property that targets it (undefined for a missing column).
     */
    method Properties(props: seq<Property>) returns (mapped: map<string, Option<V>>)
      ensures mapped.Keys == set i | 0 <= i < |props| :: Target(props[i])
      ensures forall i :: 0 <= i < |props| && LastWriter(props, i) ==> mapped[Target(props[i])] == Read(Source(props[i]))
    {
      mapped := map[];
      var n := 0;
      while n < |props|
        invariant 0 <= n <= |props|
        invariant mapped.Keys == set i | 0 <= i < n :: Target(props[i])
        invariant forall i :: 0 <= i < n && (forall j :: i < j < n ==> Target(props[j]) != Target(props[i]))
                    ==> mapped[Target(props[i])] == Read(Source(props[i]))
      {
        var property := props[n];
        mapped := mapped[Target(property) := Read(Source(property))];
        n := n + 1;
      }
    }

    /** DatabaseMapper.map: wraps the row, without copying or changing it. */
    static method Map(databaseObject: map<string, V>) returns (mapper: DatabaseMapper<V>)
      ensures fresh(mapper) && mapper.databaseObject == databaseObject
    {
      mapper := new DatabaseMapper(databaseObject);
    }
  }
}
