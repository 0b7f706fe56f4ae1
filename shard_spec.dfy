/** Partition identity records of the data store's segment metadata: a type
    tag with a partition number, and the numbered form that also carries the
    partition count. */
module ShardSpecs {
  import opened JavaInt
  import opened Wrappers

  /** The two record classes. `Numbered` extends `IdOnly` with the partition
      count; both share the inherited `shardType` and `partitionNum`. Records
      are values: nothing changes them after construction. */
  datatype ShardSpec =
    | IdOnly(shardType: string, partitionNum: int32)
    | Numbered(shardType: string, partitionNum: int32, partitions: int32)

  /** The metadata of an unsharded segment, seen through its partition number. */
  datatype NoneShardSpec = NoneShardSpec(partitionNum: int32)

  /** Any other shard spec of the data store's library, seen through its
      partition number. */
  datatype ForeignShardSpec = ForeignShardSpec(partitionNum: int32)

  /** The failure of the capabilities these records do not implement. */
  datatype NotImplemented = NotImplementedException(message: string)

  /** Stand-ins for the library's chunk, row and lookup types. */
  datatype PartitionChunk<T> = PartitionChunk(obj: T)
  datatype InputRow = InputRow(dimensions: seq<string>)
  datatype ShardSpecLookup = ShardSpecLookup(specs: seq<ShardSpec>)

  /** The JSON constructor of the id-only record. */
  function IdOnlyFromJson(shardType: string, partitionNum: int32): (s: ShardSpec)
    ensures s.IdOnly? && GetType(s) == shardType && GetPartitionNum(s) == partitionNum
  {
    IdOnly(shardType, partitionNum)
  }

  /** The id-only record of an unsharded spec: type "none" and its number. */
  function IdOnlyFromNone(spec: NoneShardSpec): (s: ShardSpec)
    ensures s.IdOnly? && GetType(s) == "none" && GetPartitionNum(s) == spec.partitionNum
  {
    IdOnly("none", spec.partitionNum)
  }

  /** The id-only record of any other spec: type "idOnly" and its number. */
  function IdOnlyFromShardSpec(spec: ForeignShardSpec): (s: ShardSpec)
    ensures s.IdOnly? && GetType(s) == "idOnly" && GetPartitionNum(s) == spec.partitionNum
  {
    IdOnly("idOnly", spec.partitionNum)
  }

  /** The JSON constructor of the numbered record: any three values, with no
      check that the number lies below the count. */
  function NumberedFromJson(shardType: string, partitionNum: int32, partitions: int32): (s: ShardSpec)
    ensures s.Numbered? && GetType(s) == shardType && GetPartitionNum(s) == partitionNum
    ensures GetPartitions(s) == partitions
  {
    Numbered(shardType, partitionNum, partitions)
  }

  /** The numbered record of an unsharded spec: type "none", its number, and
      one more partition than that number, in Java `int` arithmetic. Below the
      largest `int` the count exceeds the number; at the largest it wraps to
      the smallest. */
  function NumberedFromNone(spec: NoneShardSpec): (s: ShardSpec)
    ensures s.Numbered? && GetType(s) == "none" && GetPartitionNum(s) == spec.partitionNum
    ensures spec.partitionNum as int < MAX_INT ==>
              GetPartitions(s) as int == spec.partitionNum as int + 1 && GetPartitions(s) > GetPartitionNum(s)
    ensures spec.partitionNum as int == MAX_INT ==> GetPartitions(s) as int == MIN_INT
  {
    Numbered("none", spec.partitionNum, Add(spec.partitionNum, 1))
  }

  /** `getType`, inherited by the numbered record: the stored type, so the
      record rebuilt from the answer and its other fields is the same record. */
  function GetType(s: ShardSpec): (r: string)
    ensures s.IdOnly? ==> s == IdOnly(r, s.partitionNum)
    ensures s.Numbered? ==> s == Numbered(r, s.partitionNum, s.partitions)
  {
    s.shardType
  }

  /** `getPartitionNum`, inherited by the numbered record: the stored number,
      so the record rebuilt from the answer and its other fields is the same. */
  function GetPartitionNum(s: ShardSpec): (r: int32)
    ensures s.IdOnly? ==> s == IdOnly(s.shardType, r)
    ensures s.Numbered? ==> s == Numbered(s.shardType, r, s.partitions)
  {
    s.partitionNum
  }

  /** `getPartitions` of the numbered record: the stored count, from which
      and the other two fields the record is rebuilt unchanged. */
  function GetPartitions(s: ShardSpec): (r: int32)
    requires s.Numbered?
    ensures s == Numbered(s.shardType, s.partitionNum, r)
  {
    s.partitions
  }

  /** `createChunk` always fails. */
  function CreateChunk<T>(s: ShardSpec, obj: T): (r: Result<PartitionChunk<T>, NotImplemented>)
    ensures r.Failure?
  {
    Failure(NotImplementedException("createChunk method is not implemented"))
  }

  /** `isInChunk` always fails. */
  function IsInChunk(s: ShardSpec, timestamp: int, inputRow: InputRow): (r: Result<bool, NotImplemented>)
    ensures r.Failure?
  {
    Failure(NotImplementedException("isInChunk method is not implemented"))
  }

  /** `getLookup` always fails. */
  function GetLookup(s: ShardSpec, shardSpecs: seq<ShardSpec>): (r: Result<ShardSpecLookup, NotImplemented>)
    ensures r.Failure?
  {
    Failure(NotImplementedException("getLookup method is not implemented"))
  }

  /** The numbered record of unsharded partition 0 is ("none", 0, 1). */
  lemma NumberedFromNoneZero()
    ensures NumberedFromNone(NoneShardSpec(0)) == Numbered("none", 0, 1)
  {
  }

  /** The numbered JSON constructor accepts a partition number at or above the
      partition count. */
  lemma NumberedFromJsonUnchecked()
    ensures var s := NumberedFromJson("numbered", 5, 2); GetPartitionNum(s) >= GetPartitions(s)
  {
  }

  /** The two conversions of the same partition number differ only in their
      type tag, so any view built on the number alone cannot tell them apart. */
  lemma ConversionsDifferOnlyInType(n: int32)
    ensures IdOnlyFromNone(NoneShardSpec(n)) != IdOnlyFromShardSpec(ForeignShardSpec(n))
    ensures GetPartitionNum(IdOnlyFromNone(NoneShardSpec(n))) == GetPartitionNum(IdOnlyFromShardSpec(ForeignShardSpec(n)))
    ensures GetPartitionNum(NumberedFromNone(NoneShardSpec(n))) == GetPartitionNum(IdOnlyFromNone(NoneShardSpec(n)))
  {
  }
}
