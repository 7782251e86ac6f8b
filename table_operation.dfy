/** Table entities as operations carry them, single table operations, and
    batches of operations. */
module TableOperations {
  import opened EntityProperties
  import opened Decimal

  /** `table_entity`: the keys, the etag and the properties by name. The
      properties are held by value, as the C++ map of `entity_property`
      objects holds copies. */
  datatype TableEntity = TableEntity(
    partitionKey: string,
    rowKey: string,
    etag: string,
    properties: map<string, PropertyValue>)
  {
    /** `table_entity()`: no keys, no etag, no properties. */
    static function Empty(): (e: TableEntity)
      ensures e.partitionKey == "" && e.rowKey == "" && e.etag == "" && e.properties == map[]
    {
      TableEntity("", "", "", map[])
    }

    /** `table_entity(partition_key, row_key)` */
    static function WithKeys(partitionKey: string, rowKey: string): (e: TableEntity)
      ensures e.partitionKey == partitionKey && e.rowKey == rowKey
      ensures e.etag == "" && e.properties == map[]
    {
      Empty().(partitionKey := partitionKey, rowKey := rowKey)
    }
  }

  /** `table_operation_type` */
  datatype TableOperationType =
    | InsertOperation | DeleteOperation | ReplaceOperation | MergeOperation
    | InsertOrReplaceOperation | InsertOrMergeOperation | RetrieveOperation

  /** `table_operation`: what to do, and to which entity. */
  datatype TableOperation = TableOperation(operationType: TableOperationType, entity: TableEntity)
  {
    static function DeleteEntity(entity: TableEntity): (op: TableOperation)
      ensures op.operationType == DeleteOperation && op.entity == entity
    {
      TableOperation(DeleteOperation, entity)
    }

    static function InsertEntity(entity: TableEntity): (op: TableOperation)
      ensures op.operationType == InsertOperation && op.entity == entity
    {
      TableOperation(InsertOperation, entity)
    }

    static function InsertOrMergeEntity(entity: TableEntity): (op: TableOperation)
      ensures op.operationType == InsertOrMergeOperation && op.entity == entity
    {
      TableOperation(InsertOrMergeOperation, entity)
    }

    static function InsertOrReplaceEntity(entity: TableEntity): (op: TableOperation)
      ensures op.operationType == InsertOrReplaceOperation && op.entity == entity
    {
      TableOperation(InsertOrReplaceOperation, entity)
    }

    static function MergeEntity(entity: TableEntity): (op: TableOperation)
      ensures op.operationType == MergeOperation && op.entity == entity
    {
      TableOperation(MergeOperation, entity)
    }

    static function ReplaceEntity(entity: TableEntity): (op: TableOperation)
      ensures op.operationType == ReplaceOperation && op.entity == entity
    {
      TableOperation(ReplaceOperation, entity)
    }

    /** A retrieval names its entity by keys only: the entity it carries
        has the two keys and nothing else. */
    static function RetrieveEntity(partitionKey: string, rowKey: string): (op: TableOperation)
      ensures op.operationType == RetrieveOperation
      ensures op.entity.partitionKey == partitionKey && op.entity.rowKey == rowKey
      ensures op.entity.etag == "" && op.entity.properties == map[]
    {
      var entity := TableEntity.Empty();
      var entity := entity.(partitionKey := partitionKey);
      var entity := entity.(rowKey := rowKey);
      TableOperation(RetrieveOperation, entity)
    }
  }

  /** `table_batch_operation`: an append-only list of operations. */
  class TableBatchOperation {
    var operations: seq<TableOperation>

    constructor ()
      ensures operations == []
    {
      operations := [];
    }

    method DeleteEntity(entity: TableEntity)
      modifies this
      ensures operations == old(operations) + [TableOperation(DeleteOperation, entity)]
    {
      operations := operations + [TableOperation.DeleteEntity(entity)];
    }

    method InsertEntity(entity: TableEntity)
      modifies this
      ensures operations == old(operations) + [TableOperation(InsertOperation, entity)]
    {
      operations := operations + [TableOperation.InsertEntity(entity)];
    }

    method InsertOrMergeEntity(entity: TableEntity)
      modifies this
      ensures operations == old(operations) + [TableOperation(InsertOrMergeOperation, entity)]
    {
      operations := operations + [TableOperation.InsertOrMergeEntity(entity)];
    }

    method InsertOrReplaceEntity(entity: TableEntity)
      modifies this
      ensures operations == old(operations) + [TableOperation(InsertOrReplaceOperation, entity)]
    {
      operations := operations + [TableOperation.InsertOrReplaceEntity(entity)];
    }

    method MergeEntity(entity: TableEntity)
      modifies this
      ensures operations == old(operations) + [TableOperation(MergeOperation, entity)]
    {
      operations := operations + [TableOperation.MergeEntity(entity)];
    }

    method ReplaceEntity(entity: TableEntity)
      modifies this
      ensures operations == old(operations) + [TableOperation(ReplaceOperation, entity)]
    {
      operations := operations + [TableOperation.ReplaceEntity(entity)];
    }

    method RetrieveEntity(partitionKey: string, rowKey: string)
      modifies this
      ensures operations == old(operations) + [TableOperation(RetrieveOperation, TableEntity.WithKeys(partitionKey, rowKey))]
    {
      operations := operations + [TableOperation.RetrieveEntity(partitionKey, rowKey)];
    }
  }

  /** How many operations of a kind a list holds. */
  function CountOf(kind: TableOperationType, ops: seq<TableOperation>): nat
  {
    if ops == [] then 0
    else CountOf(kind, ops[..|ops| - 1]) + (if ops[|ops| - 1].operationType == kind then 1 else 0)
  }

  /** Appending one operation adds one to its own kind's count and leaves
      every other kind's count unchanged. */
  lemma {:induction false} CountOfAppend(kind: TableOperationType, ops: seq<TableOperation>, op: TableOperation)
    ensures CountOf(kind, ops + [op]) == CountOf(kind, ops) + (if op.operationType == kind then 1 else 0)
  {
    assert (ops + [op])[..|ops + [op]| - 1] == ops;
  }

  /** A batch built by a sequence of add calls lists the operations in call
      order, each with the kind of the call that added it. */
  method BuildBatch(inserted: TableEntity, deleted: TableEntity, partitionKey: string, rowKey: string)
    returns (ops: seq<TableOperation>)
    ensures |ops| == 3
    ensures ops[0] == TableOperation(InsertOperation, inserted)
    ensures ops[1] == TableOperation(DeleteOperation, deleted)
    ensures ops[2].operationType == RetrieveOperation
    ensures ops[2].entity.partitionKey == partitionKey && ops[2].entity.rowKey == rowKey
    ensures ops[2].entity.etag == "" && ops[2].entity.properties == map[]
    ensures CountOf(DeleteOperation, ops) == 1 && CountOf(MergeOperation, ops) == 0
  {
    var batch := new TableBatchOperation();
    batch.InsertEntity(inserted);
    batch.DeleteEntity(deleted);
    batch.RetrieveEntity(partitionKey, rowKey);
    ops := batch.operations;
    assert ops == [TableOperation(InsertOperation, inserted)] + [TableOperation(DeleteOperation, deleted)]
                  + [TableOperation(RetrieveOperation, TableEntity.WithKeys(partitionKey, rowKey))];
    CountOfAppend(DeleteOperation, [], ops[0]);
    CountOfAppend(DeleteOperation, ops[..1], ops[1]);
    CountOfAppend(DeleteOperation, ops[..2], ops[2]);
    CountOfAppend(MergeOperation, [], ops[0]);
    CountOfAppend(MergeOperation, ops[..1], ops[1]);
    CountOfAppend(MergeOperation, ops[..2], ops[2]);
    assert ops[..1] == [] + [ops[0]] && ops[..2] == ops[..1] + [ops[1]] && ops == ops[..2] + [ops[2]];
  }

  /** An operation keeps its own copy of the entity and of its
      properties: changing the property object after the entity was added
      to a batch leaves the batched operation as it was. */
  method BatchKeepsCopy(name: string, n: Int32, later: Int32) returns (stored: PropertyValue, current: PropertyValue)
    ensures stored == PropertyValue(Int32Type, false, DecimalText(n))
    ensures current == PropertyValue(Int32Type, false, DecimalText(later))
  {
    var p := new EntityProperty.FromInt32(n);
    var entity := TableEntity.WithKeys("", "").(properties := map[name := p.Copy()]);
    var batch := new TableBatchOperation();
    batch.InsertEntity(entity);
    p.SetInt32(later);
    stored := batch.operations[0].entity.properties[name];
    current := p.Copy();
  }
}
