/** The record adapter (`MilvusMemoryStore`): maps a memory record, made of an
    id, an embedding and a metadata blob, onto three columns of a Milvus
    collection and back. Each operation is a method that makes its calls
    through a `MilvusClient` and states what it calls and what it returns; the
    operations that decode replies or make further calls depending on them are
    stated by a function of the server and the calls made before it (a `Run`). */
module MilvusMemoryStore {
  import opened Common
  import opened Text
  import opened MilvusClient
  import Constants

  const EmbeddingFieldName := "embedding"
  const IdFieldName := "Id"
  const MetadataFieldName := "metadata"

  /** The output fields of every query of the store. */
  const QueryFields := [MetadataFieldName, EmbeddingFieldName]

  /** A memory record: its metadata as serialised JSON, and its embedding,
      absent when the record was built without one. */
  datatype MemoryRecord = MemoryRecord(metadata: string, embedding: Option<Embedding>)

  /** A match of a similarity search: the record (possibly null) and its score. */
  type Match = (Option<MemoryRecord>, real)

  /** What a lazy sequence produces when drained: its items, then possibly an exception. */
  datatype Stream<T> = Stream(items: seq<T>, failure: Option<Exception>)

  /** What one operation of the store does: the calls it makes, in order, and its result. */
  datatype Run<T> = Run(calls: seq<Call>, result: T)

  // ---------------------------------------------------------------------------------------
  // Filter expressions

  function Quote(key: string): (q: string)
    ensures |q| == |key| + 2 && q[0] == '"' && q[|q| - 1] == '"' && q[1..|q| - 1] == key
  {
    "\"" + key + "\""
  }

  function Quoted(keys: seq<string>): (qs: seq<string>)
    ensures |qs| == |keys|
    ensures forall i :: 0 <= i < |keys| ==> qs[i] == Quote(keys[i])
  {
    seq(|keys|, i requires 0 <= i < |keys| => Quote(keys[i]))
  }

  /** The keys, each quoted, joined by ", " in input order. */
  function KeyGroup(keys: seq<string>): string
  {
    Join(Quoted(keys), ", ")
  }

  /** The `StringBuilder` loop: a separator before every key but when the
      builder is still empty, then the quoted key. */
  method GetKeyGroup(keys: seq<string>) returns (group: string)
    ensures group == KeyGroup(keys)
  {
    var quoted := Quoted(keys);
    var sb := "";
    var i := 0;
    while i < |keys|
      invariant 0 <= i <= |keys|
      invariant sb == Join(quoted[..i], ", ")
      invariant |sb| > 0 <==> i > 0
    {
      assert quoted[..i + 1] == quoted[..i] + [quoted[i]];
      if |sb| > 0 {
        JoinSnoc(quoted[..i], quoted[i], ", ");
        sb := sb + ", ";
      }
      sb := sb + Quote(keys[i]);
      i := i + 1;
    }
    assert quoted[..i] == quoted;
    group := sb;
  }

  /** `<field> in [<list>]`: the field name, then the list between brackets, which can be cut back out. */
  function InFilter(fieldName: string, list: string): (f: string)
    ensures |f| == |fieldName| + |list| + 6
    ensures f[..|fieldName|] == fieldName && f[|fieldName|..|fieldName| + 5] == " in ["
    ensures f[|fieldName| + 5..|f| - 1] == list && f[|f| - 1] == ']'
  {
    fieldName + " in [" + list + "]"
  }

  /** The filter of a single-key get or remove: `Id in ["key"]`. */
  function KeyFilter(key: string): (f: string)
    ensures f == "Id in [\"" + key + "\"]"
  {
    InFilter(IdFieldName, Quote(key))
  }

  /** No keys give an empty group. */
  lemma EmptyKeyGroup()
    ensures KeyGroup([]) == ""
  {
  }

  /** A batch of one key filters exactly as the single-key form does. */
  lemma SingleKeyBatch(key: string)
    ensures InFilter(IdFieldName, KeyGroup([key])) == KeyFilter(key)
  {
  }

  /** Groups keep input order: two runs of keys give their groups joined by ", ". */
  lemma {:induction false} KeyGroupInOrder(xs: seq<string>, ys: seq<string>)
    requires |xs| > 0 && |ys| > 0
    ensures KeyGroup(xs + ys) == KeyGroup(xs) + ", " + KeyGroup(ys)
  {
    assert Quoted(xs + ys) == Quoted(xs) + Quoted(ys);
    JoinAppend(Quoted(xs), Quoted(ys), ", ");
  }

  // ---------------------------------------------------------------------------------------
  // Columns of a result

  /** `Enumerable.First(p => p.FieldName == name)`, by position; `None` where it throws. */
  function FirstIndex(fields: seq<Field>, name: string): (k: Option<nat>)
    ensures k.Some? ==> k.value < |fields| && fields[k.value].name == name
    ensures k.Some? ==> forall j :: 0 <= j < k.value ==> fields[j].name != name
    ensures k.None? ==> forall j :: 0 <= j < |fields| ==> fields[j].name != name
  {
    if |fields| == 0 then None
    else if fields[0].name == name then Some(0)
    else match FirstIndex(fields[1..], name)
      case None => None
      case Some(k) => Some(k + 1)
  }

  /** The first column of a query result with the given name, if the result has columns and one of them is so named. */
  function Column(result: QueryResult, name: string): (f: Option<Field>)
    ensures f.Some? ==> result.fieldsData.Some? && f.value in result.fieldsData.value && f.value.name == name
    ensures f.None? && result.fieldsData.Some? ==>
      forall j :: 0 <= j < |result.fieldsData.value| ==> result.fieldsData.value[j].name != name
    ensures result.fieldsData.Some? ==>
      match FirstIndex(result.fieldsData.value, name)
      case None => f.None?
      case Some(k) => f == Some(result.fieldsData.value[k])
  {
    match result.fieldsData
    case None => None
    case Some(fs) =>
      match FirstIndex(fs, name)
      case None => None
      case Some(k) => Some(fs[k])
  }

  predicate HasColumns(result: QueryResult)
  {
    result.fieldsData.Some? && |result.fieldsData.value| > 0
  }

  /** The result has columns and its first column has rows. */
  predicate HasRows(result: QueryResult)
  {
    HasColumns(result) && result.fieldsData.value[0].RowCount() > 0
  }

  /** Row i can be read: a string metadata column and a vector embedding column, both with a row i. */
  predicate RowReadable(result: QueryResult, i: nat)
  {
    var m := Column(result, MetadataFieldName);
    var e := Column(result, EmbeddingFieldName);
    && m.Some? && m.value.StringField? && i < |m.value.data|
    && e.Some? && e.value.FloatVectorField? && i < |e.value.vectors|
  }

  /** `MemoryRecord.FromJsonMetadata(metadata[i], new Embedding(embedding[i]))`. */
  function RecordAt(result: QueryResult, i: nat): (r: MemoryRecord)
    requires RowReadable(result, i)
    ensures r.metadata == Column(result, MetadataFieldName).value.data[i]
    ensures r.embedding == Some(Column(result, EmbeddingFieldName).value.vectors[i])
  {
    MemoryRecord(Column(result, MetadataFieldName).value.data[i], Some(Column(result, EmbeddingFieldName).value.vectors[i]))
  }

  /** The decoding of `GetAsync`: null when there are no columns or the first
      has no rows; otherwise the record of row 0, embedding included, or the
      exception its reading throws. */
  function DecodeGet(result: QueryResult): (r: Result<Option<MemoryRecord>>)
    ensures r == Success(None) <==> !HasRows(result)
    ensures HasRows(result) ==> (r.Success? <==> RowReadable(result, 0))
    ensures r.Success? && r.value.Some? ==> RowReadable(result, 0) && r.value.value == RecordAt(result, 0)
    ensures r.Success? && r.value.Some? ==> r.value.value.embedding.Some?
    ensures r.Failure? ==>
      (r.error == InvalidOperation <==>
        Column(result, MetadataFieldName).None? || Column(result, EmbeddingFieldName).None?)
  {
    if !HasRows(result) then Success(None)
    else
      var m := Column(result, MetadataFieldName);
      var e := Column(result, EmbeddingFieldName);
      if m.None? || e.None? then Failure(InvalidOperation)
      else if !m.value.StringField? then Failure(NullReference)
      else if |m.value.data| == 0 then Failure(ArgumentOutOfRange)
      else if !e.value.FloatVectorField? then Failure(NullReference)
      else if |e.value.vectors| == 0 then Failure(ArgumentOutOfRange)
      else Success(Some(RecordAt(result, 0)))
  }

  /** The count of metadata rows that also have an embedding row. */
  function PairedRows(metadata: Field, embedding: Field): (n: nat)
    requires metadata.StringField? && embedding.FloatVectorField?
    ensures n <= |metadata.data| && n <= |embedding.vectors|
    ensures n == |metadata.data| || n == |embedding.vectors|
  {
    if |metadata.data| <= |embedding.vectors| then |metadata.data| else |embedding.vectors|
  }

  /** What `GetBatchAsync` yields for a query result: nothing without columns;
      otherwise record i for each metadata row i that has an embedding row,
      then the exception of the first row that cannot be read. */
  function BatchStream(result: QueryResult): (s: Stream<MemoryRecord>)
    ensures !HasColumns(result) ==> s == Stream([], None)
    ensures forall i :: 0 <= i < |s.items| ==> RowReadable(result, i) && s.items[i] == RecordAt(result, i)
    ensures HasColumns(result) && s.failure.None? ==>
      && Column(result, MetadataFieldName).Some? && Column(result, MetadataFieldName).value.StringField?
      && |s.items| == |Column(result, MetadataFieldName).value.data|
  {
    if !HasColumns(result) then Stream([], None)
    else
      var m := Column(result, MetadataFieldName);
      var e := Column(result, EmbeddingFieldName);
      if m.None? || e.None? then Stream([], Some(InvalidOperation))
      else if !m.value.StringField? then Stream([], Some(NullReference))
      else if |m.value.data| == 0 then Stream([], None)
      else if !e.value.FloatVectorField? then Stream([], Some(NullReference))
      else
        var n := PairedRows(m.value, e.value);
        Stream(seq(n, i requires 0 <= i < n => RecordAt(result, i)),
               if n < |m.value.data| then Some(ArgumentOutOfRange) else None)
  }

  /** When a batch over a result with columns fails: it yields every row
      exactly when both columns exist, the metadata is a string column, and every
      metadata row can be read; a missing column is the `InvalidOperationException`. */
  lemma {:induction false} BatchFailsExactly(result: QueryResult)
    requires HasColumns(result)
    ensures var m := Column(result, MetadataFieldName);
      var e := Column(result, EmbeddingFieldName);
      && (BatchStream(result).failure.None? <==>
           && m.Some? && e.Some? && m.value.StringField?
           && forall i :: 0 <= i < |m.value.data| ==> RowReadable(result, i))
      && (BatchStream(result).failure == Some(InvalidOperation) <==> m.None? || e.None?)
  {
    var m := Column(result, MetadataFieldName);
    var e := Column(result, EmbeddingFieldName);
    if m.Some? && e.Some? && m.value.StringField? && |m.value.data| > 0 {
      if !e.value.FloatVectorField? {
        assert !RowReadable(result, 0);
      } else if |e.value.vectors| < |m.value.data| {
        assert !RowReadable(result, |e.value.vectors|);
      }
    }
  }

  /** The row loop of `GetBatchAsync`. */
  method DecodeBatch(result: QueryResult) returns (s: Stream<MemoryRecord>)
    ensures s == BatchStream(result)
  {
    if !HasColumns(result) {
      return Stream([], None);
    }
    var metadataField := Column(result, MetadataFieldName);
    var embeddingField := Column(result, EmbeddingFieldName);
    if metadataField.None? || embeddingField.None? {
      return Stream([], Some(InvalidOperation));
    }
    if !metadataField.value.StringField? {
      return Stream([], Some(NullReference));
    }
    var metadata := metadataField.value.data;
    var records: seq<MemoryRecord> := [];
    var i := 0;
    while i < |metadata|
      invariant 0 <= i <= |metadata|
      invariant i > 0 ==> embeddingField.value.FloatVectorField? && i <= |embeddingField.value.vectors|
      invariant |records| == i
      invariant forall k :: 0 <= k < i ==> RowReadable(result, k) && records[k] == RecordAt(result, k)
    {
      if !embeddingField.value.FloatVectorField? {
        return Stream(records, Some(NullReference));
      }
      if i >= |embeddingField.value.vectors| {
        return Stream(records, Some(ArgumentOutOfRange));
      }
      records := records + [MemoryRecord(metadata[i], Some(embeddingField.value.vectors[i]))];
      i := i + 1;
    }
    return Stream(records, None);
  }

  /** When a get succeeds with a record, a batch over the same result starts with that record. */
  lemma GetIsFirstOfBatch(result: QueryResult)
    requires DecodeGet(result).Success? && DecodeGet(result).value.Some?
    ensures |BatchStream(result).items| > 0
    ensures BatchStream(result).items[0] == DecodeGet(result).value.value
  {
  }

  // ---------------------------------------------------------------------------------------
  // Columns written by an upsert

  /** The vector of a record; a record built without an embedding has the empty one. */
  function VectorOf(record: MemoryRecord): (v: Embedding)
    ensures record.embedding.Some? ==> v == record.embedding.value
  {
    if record.embedding.Some? then record.embedding.value else []
  }

  /** The id column of a single upsert: the batch column of a one-record list. */
  function ToIdField(record: MemoryRecord, metadataId: string -> string): (f: Field)
    ensures f == ToIdFieldBatch([record], metadataId)
  {
    StringField(IdFieldName, [metadataId(record.metadata)])
  }

  /** The embedding column of a single upsert: the batch column of a one-record list. */
  function ToFloatField(record: MemoryRecord): (f: Field)
    ensures f == ToFloatFieldBatch([record])
  {
    FloatVectorField(EmbeddingFieldName, [VectorOf(record)])
  }

  /** The metadata column of a single upsert: the batch column of a one-record list. */
  function ToMetadataField(record: MemoryRecord): (f: Field)
    ensures f == ToMetadataFieldBatch([record])
  {
    StringField(MetadataFieldName, [record.metadata])
  }

  /** The id column of a batch: row i is the metadata id of record i. */
  function ToIdFieldBatch(records: seq<MemoryRecord>, metadataId: string -> string): (f: Field)
    ensures f.StringField? && f.name == IdFieldName && |f.data| == |records|
    ensures forall i :: 0 <= i < |records| ==> f.data[i] == metadataId(records[i].metadata)
  {
    StringField(IdFieldName, seq(|records|, i requires 0 <= i < |records| => metadataId(records[i].metadata)))
  }

  /** The embedding column of a batch: row i is the vector of record i. */
  function ToFloatFieldBatch(records: seq<MemoryRecord>): (f: Field)
    ensures f.FloatVectorField? && f.name == EmbeddingFieldName && |f.vectors| == |records|
    ensures forall i :: 0 <= i < |records| ==> f.vectors[i] == VectorOf(records[i])
  {
    FloatVectorField(EmbeddingFieldName, seq(|records|, i requires 0 <= i < |records| => VectorOf(records[i])))
  }

  /** The metadata column of a batch: row i is the serialised metadata of record i. */
  function ToMetadataFieldBatch(records: seq<MemoryRecord>): (f: Field)
    ensures f.StringField? && f.name == MetadataFieldName && |f.data| == |records|
    ensures forall i :: 0 <= i < |records| ==> f.data[i] == records[i].metadata
  {
    StringField(MetadataFieldName, seq(|records|, i requires 0 <= i < |records| => records[i].metadata))
  }

  /** The three columns of an insert, in the order `[Id, embedding, metadata]`. */
  function BatchColumns(records: seq<MemoryRecord>, metadataId: string -> string): (fs: seq<Field>)
    ensures |fs| == 3 && fs[0].name == IdFieldName && fs[1].name == EmbeddingFieldName && fs[2].name == MetadataFieldName
    ensures forall k :: 0 <= k < 3 ==> fs[k].RowCount() == |records|
  {
    [ToIdFieldBatch(records, metadataId), ToFloatFieldBatch(records), ToMetadataFieldBatch(records)]
  }

  /** A single upsert writes the same columns as a batch of that one record. */
  lemma SingleUpsertIsBatchOfOne(record: MemoryRecord, metadataId: string -> string)
    ensures [ToIdField(record, metadataId), ToFloatField(record), ToMetadataField(record)]
         == BatchColumns([record], metadataId)
  {
    var batch := BatchColumns([record], metadataId);
    assert batch[0].data == [metadataId(record.metadata)];
    assert batch[1].vectors == [VectorOf(record)];
    assert batch[2].data == [record.metadata];
  }

  /** Reading back what an upsert wrote: row i of its columns is record i again. */
  lemma {:induction false} BatchColumnsReadBack(records: seq<MemoryRecord>, metadataId: string -> string, i: nat)
    requires i < |records| && records[i].embedding.Some?
    ensures var result := QueryResult(Some(BatchColumns(records, metadataId)));
      RowReadable(result, i) && RecordAt(result, i) == records[i]
  {
    var fs := BatchColumns(records, metadataId);
    var result := QueryResult(Some(fs));
    assert FirstIndex(fs[2..], MetadataFieldName) == Some(0);
    assert FirstIndex(fs[1..], MetadataFieldName) == Some(1);
    assert FirstIndex(fs, MetadataFieldName) == Some(2);
    assert FirstIndex(fs[1..], EmbeddingFieldName) == Some(0);
    assert FirstIndex(fs, EmbeddingFieldName) == Some(1);
  }

  /** The first returned id of an insert. */
  function FirstId(reply: Result<MutationResult>): (r: Result<string>)
    ensures reply.Failure? ==> r == Failure(reply.error)
    ensures reply.Success? && reply.value.strIds.None? ==> r == Failure(NullReference)
    ensures reply.Success? && reply.value.strIds.Some? ==>
      (r.Success? <==> |reply.value.strIds.value| > 0)
    ensures r.Success? ==> r.value == reply.value.strIds.value[0]
  {
    match reply
    case Failure(e) => Failure(e)
    case Success(m) =>
      if m.strIds.None? then Failure(NullReference)
      else if |m.strIds.value| == 0 then Failure(ArgumentOutOfRange)
      else Success(m.strIds.value[0])
  }

  // ---------------------------------------------------------------------------------------
  // Collection creation

  /** The schema of a store's collection: exactly one primary key, `Id`, first;
      a vector of the store's dimension; metadata up to 1000 characters. */
  function Schema(vectorSize: int): (s: seq<FieldType>)
    ensures |s| == 3
    ensures s[0] == VarcharType("Id", 100, true)
    ensures s[1] == FloatVectorType("embedding", vectorSize)
    ensures s[2] == VarcharType("metadata", 1000, false)
    ensures forall k :: 0 <= k < |s| ==> (s[k].IsPrimaryKey() <==> k == 0)
  {
    [ VarcharType(IdFieldName, 100, true),
      FloatVectorType(EmbeddingFieldName, vectorSize),
      VarcharType(MetadataFieldName, 1000, false) ]
  }

  /** The index request: on the vector field, named by the default index name,
      inner product, `nlist` 1024, and AUTOINDEX exactly for Zilliz Cloud. */
  function IndexRequest(collectionName: string, zillizCloud: bool): (r: Request)
    ensures r.CreateIndex? && r.collectionName == collectionName && r.fieldName == "embedding"
    ensures r.indexName == Constants.DefaultIndexName && r.metricType == IP
    ensures r.extraParams == [("nlist", "1024")]
    ensures r.indexType == AutoIndex <==> zillizCloud
  {
    CreateIndex(collectionName, EmbeddingFieldName, Constants.DefaultIndexName,
                if zillizCloud then AutoIndex else IvfFlat, IP, [("nlist", "1024")])
  }

  /** The four calls of creating an absent collection. */
  function CreationCalls(collectionName: string, token: CancellationToken, vectorSize: int, zillizCloud: bool): seq<Call>
  {
    [ Call(HasCollection(collectionName), token),
      Call(CreateCollection(collectionName, Schema(vectorSize), Session, 1), token),
      Call(IndexRequest(collectionName, zillizCloud), token),
      Call(LoadCollection(collectionName, 1), NoToken) ]
  }

  /** `CreateCollectionAsync`: ask whether the collection exists; if not, create
      it, index it and load it; stop at the first call that throws. */
  function CreateCollectionRun(server: Server, history: seq<Call>, collectionName: string, token: CancellationToken,
                               vectorSize: int, zillizCloud: bool): (run: Run<Outcome>)
    ensures 1 <= |run.calls| <= 4
    ensures run.calls == CreationCalls(collectionName, token, vectorSize, zillizCloud)[..|run.calls|]
  {
    var all := CreationCalls(collectionName, token, vectorSize, zillizCloud);
    var present := server.has(history, all[0].request);
    if present.Failure? then Run(all[..1], Fail(present.error))
    else if present.value then Run(all[..1], Pass)
    else
      var created := server.status(history + all[..1], all[1].request);
      if created.Fail? then Run(all[..2], created)
      else
        var indexed := server.status(history + all[..2], all[2].request);
        if indexed.Fail? then Run(all[..3], indexed)
        else Run(all, server.status(history + all[..3], all[3].request))
  }

  /** An existing collection: one existence check and nothing else. */
  lemma CreateWhenPresent(server: Server, history: seq<Call>, collectionName: string, token: CancellationToken,
                          vectorSize: int, zillizCloud: bool)
    requires server.has(history, HasCollection(collectionName)) == Success(true)
    ensures CreateCollectionRun(server, history, collectionName, token, vectorSize, zillizCloud)
         == Run([Call(HasCollection(collectionName), token)], Pass)
  {
  }

  /** An absent collection and a server that accepts every step: exactly
      check, create, index, load, in that order; the load gets no token. */
  lemma CreateWhenAbsent(server: Server, history: seq<Call>, collectionName: string, token: CancellationToken,
                         vectorSize: int, zillizCloud: bool)
    requires server.has(history, HasCollection(collectionName)) == Success(false)
    requires forall h: seq<Call>, r: Request :: server.status(h, r) == Pass
    ensures var run := CreateCollectionRun(server, history, collectionName, token, vectorSize, zillizCloud);
      && run.result == Pass
      && run.calls == [ Call(HasCollection(collectionName), token),
                        Call(CreateCollection(collectionName, Schema(vectorSize), Session, 1), token),
                        Call(IndexRequest(collectionName, zillizCloud), token),
                        Call(LoadCollection(collectionName, 1), NoToken) ]
  {
  }

  /** A step that throws is the last call, and its exception is the result;
      every call before it passed. */
  lemma CreateStopsAtFailure(server: Server, history: seq<Call>, collectionName: string, token: CancellationToken,
                             vectorSize: int, zillizCloud: bool)
    ensures var run := CreateCollectionRun(server, history, collectionName, token, vectorSize, zillizCloud);
      var n := |run.calls|;
      var before := history + run.calls[..n - 1];
      var last := run.calls[n - 1].request;
      && (run.result.Fail? && n == 1 ==> server.has(before, last) == Failure(run.result.error))
      && (run.result.Fail? && n > 1 ==> server.status(before, last) == run.result)
      && (n < 4 && run.result.Pass? ==> n == 1 && server.has(before, last) == Success(true))
      && (n > 1 ==> server.has(history, run.calls[0].request) == Success(false))
      && (forall k :: 1 <= k < n - 1 ==> server.status(history + run.calls[..k], run.calls[k].request) == Pass)
  {
    var run := CreateCollectionRun(server, history, collectionName, token, vectorSize, zillizCloud);
    var all := CreationCalls(collectionName, token, vectorSize, zillizCloud);
    var n := |run.calls|;
    assert run.calls[..n - 1] == all[..n - 1];
    assert run.calls[n - 1] == all[n - 1];
    assert forall k :: 0 <= k < n ==> run.calls[..k] == all[..k] && run.calls[k] == all[k];
    var present := server.has(history, all[0].request);
    if present.Success? && !present.value {
      var created := server.status(history + all[..1], all[1].request);
      if created.Pass? {
        var indexed := server.status(history + all[..2], all[2].request);
        if indexed.Pass? {
          assert n == 4;
        } else {
          assert n == 3;
        }
      } else {
        assert n == 2;
      }
    } else {
      assert n == 1 && history + run.calls[..0] == history;
    }
  }

  // ---------------------------------------------------------------------------------------
  // Get

  /** `GetAsync`: one query on `Id in ["key"]` for the metadata and embedding
      fields, whatever `withEmbedding` says, then `DecodeGet`. */
  function GetRun(server: Server, history: seq<Call>, collectionName: string, key: string,
                  withEmbedding: bool, token: CancellationToken): (run: Run<Result<Option<MemoryRecord>>>)
    ensures run.calls == [Call(Query(collectionName, KeyFilter(key), QueryFields), token)]
    ensures var reply := server.query(history, Query(collectionName, KeyFilter(key), QueryFields));
      run.result == if reply.Failure? then Failure(reply.error) else DecodeGet(reply.value)
  {
    var request := Query(collectionName, KeyFilter(key), QueryFields);
    var reply := server.query(history, request);
    Run([Call(request, token)], if reply.Failure? then Failure(reply.error) else DecodeGet(reply.value))
  }

  /** `withEmbedding` changes nothing: the embedding is always requested and decoded. */
  lemma GetIgnoresWithEmbedding(server: Server, history: seq<Call>, collectionName: string, key: string,
                                token: CancellationToken)
    ensures GetRun(server, history, collectionName, key, true, token)
         == GetRun(server, history, collectionName, key, false, token)
  {
  }

  // ---------------------------------------------------------------------------------------
  // Nearest matches

  /** The search of a nearest-match lookup: metadata as the only output field,
      strong consistency, inner product, `nprobe` 10 and `offset` 5. */
  function NearestSearch(collectionName: string, embedding: Embedding, topK: int): (p: SearchParameters)
    ensures p.collectionName == collectionName && p.vectorFieldName == "embedding"
    ensures p.outputFields == ["metadata"] && p.topK == topK && p.vectors == [embedding]
  {
    SearchParameters(collectionName, EmbeddingFieldName, [MetadataFieldName], Strong, topK, [embedding], IP,
                     [("nprobe", "10"), ("offset", "5")])
  }

  /** `GetNearestMatchAsync`: a top-1 search; no match when there is no row or
      the score is below the minimum; the record is decoded from the metadata
      without embedding, or fetched again by `GetAsync` when one is wanted. */
  function NearestMatchRun(server: Server, history: seq<Call>, collectionName: string, embedding: Embedding,
                           minRelevanceScore: real, withEmbedding: bool, token: CancellationToken,
                           metadataId: string -> string): (run: Run<Result<Option<Match>>>)
    ensures |run.calls| > 0 && run.calls[0] == Call(Search(NearestSearch(collectionName, embedding, 1)), token)
  {
    var search := Call(Search(NearestSearch(collectionName, embedding, 1)), token);
    var reply := server.search(history, search.request);
    if reply.Failure? then Run([search], Failure(reply.error))
    else if reply.value.fieldsData.None? then Run([search], Failure(ArgumentNull))
    else
      var fs := reply.value.fieldsData.value;
      var scores := reply.value.scores;
      if |fs| == 0 || fs[0].RowCount() == 0 then Run([search], Success(None))
      else if |scores| == 0 then Run([search], Failure(ArgumentOutOfRange))
      else if scores[0] < minRelevanceScore then Run([search], Success(None))
      else if !fs[0].StringField? then Run([search], Failure(NullReference))
      else
        var json := fs[0].data[0];
        if withEmbedding then
          var get := GetRun(server, history + [search], collectionName, metadataId(json), withEmbedding, NoToken);
          Run([search] + get.calls,
              if get.result.Failure? then Failure(get.result.error) else Success(Some((get.result.value, scores[0]))))
        else
          Run([search], Success(Some((Some(MemoryRecord(json, None)), scores[0]))))
  }

  /** A single search whose reply has null columns throws `ArgumentNullException`
      (`Any()` over null); no columns, or a first column without rows, give null;
      either way the search is the only call. */
  lemma NearestMatchWithoutRows(server: Server, history: seq<Call>, collectionName: string, embedding: Embedding,
                                minRelevanceScore: real, withEmbedding: bool, token: CancellationToken,
                                metadataId: string -> string)
    requires var reply := server.search(history, Search(NearestSearch(collectionName, embedding, 1)));
      reply.Success? && !HasRows(QueryResult(reply.value.fieldsData))
    ensures var reply := server.search(history, Search(NearestSearch(collectionName, embedding, 1))).value;
      var run := NearestMatchRun(server, history, collectionName, embedding, minRelevanceScore,
                                 withEmbedding, token, metadataId);
      && run.calls == [Call(Search(NearestSearch(collectionName, embedding, 1)), token)]
      && run.result == (if reply.fieldsData.None? then Failure(ArgumentNull) else Success(None))
  {
  }

  /** A top hit with a readable metadata row is kept exactly when its score is
      at least the minimum (an equal score is kept), with or without embedding;
      a dropped hit costs the search alone. Without embedding the record is that
      row's metadata with no embedding. */
  lemma NearestMatchThreshold(server: Server, history: seq<Call>, collectionName: string, embedding: Embedding,
                              minRelevanceScore: real, withEmbedding: bool, token: CancellationToken,
                              metadataId: string -> string)
    requires var reply := server.search(history, Search(NearestSearch(collectionName, embedding, 1)));
      && reply.Success? && reply.value.fieldsData.Some? && |reply.value.fieldsData.value| > 0
      && reply.value.fieldsData.value[0].StringField? && |reply.value.fieldsData.value[0].data| > 0
      && |reply.value.scores| > 0
    ensures var reply := server.search(history, Search(NearestSearch(collectionName, embedding, 1))).value;
      var run := NearestMatchRun(server, history, collectionName, embedding, minRelevanceScore, withEmbedding, token, metadataId);
      && (run.result == Success(None) <==> reply.scores[0] < minRelevanceScore)
      && (reply.scores[0] < minRelevanceScore ==> |run.calls| == 1)
      && (!withEmbedding ==> |run.calls| == 1)
      && (!withEmbedding && reply.scores[0] >= minRelevanceScore ==>
            run.result == Success(Some((Some(MemoryRecord(reply.fieldsData.value[0].data[0], None)), reply.scores[0]))))
  {
  }

  /** The rows of a plural search, with what the loop over them needs. */
  datatype Scan = Scan(
    collectionName: string,
    rows: seq<string>,
    scores: seq<real>,
    minRelevanceScore: real,
    withEmbeddings: bool,
    metadataId: string -> string)

  /** The indices in [i, n) whose score is not below the minimum, in ascending order. */
  function KeptFrom(scores: seq<real>, minRelevanceScore: real, i: nat, n: nat): (k: seq<nat>)
    requires n <= |scores|
    ensures forall j :: 0 <= j < |k| ==> i <= k[j] < n && scores[k[j]] >= minRelevanceScore
    ensures forall a, b :: 0 <= a < b < |k| ==> k[a] < k[b]
    ensures i <= n ==> |k| <= n - i
    decreases n - i
  {
    if i >= n then []
    else (if scores[i] < minRelevanceScore then [] else [i]) + KeptFrom(scores, minRelevanceScore, i + 1, n)
  }

  /** Every index in [i, n) whose score is at least the minimum is kept; an equal score is kept. */
  lemma {:induction false} KeptRowsComplete(scores: seq<real>, minRelevanceScore: real, i: nat, n: nat, j: nat)
    requires n <= |scores| && i <= j < n && scores[j] >= minRelevanceScore
    ensures j in KeptFrom(scores, minRelevanceScore, i, n)
    decreases n - i
  {
    if j > i {
      KeptRowsComplete(scores, minRelevanceScore, i + 1, n, j);
    }
  }

  /** The loop of `GetNearestMatchesAsync` from row i on: a row below the
      minimum is skipped; a kept row yields its metadata without embedding, or,
      with embeddings, the record `GetAsync` returns for the id in row 0's
      metadata; a missing score or a failing get ends the sequence with its exception. */
  function MatchesFrom(server: Server, history: seq<Call>, scan: Scan, i: nat): Run<Stream<Match>>
    decreases |scan.rows| - i
  {
    if i >= |scan.rows| then Run([], Stream([], None))
    else if i >= |scan.scores| then Run([], Stream([], Some(ArgumentOutOfRange)))
    else if scan.scores[i] < scan.minRelevanceScore then MatchesFrom(server, history, scan, i + 1)
    else if scan.withEmbeddings then
      var get := GetRun(server, history, scan.collectionName, scan.metadataId(scan.rows[0]), true, NoToken);
      if get.result.Failure? then Run(get.calls, Stream([], Some(get.result.error)))
      else
        var rest := MatchesFrom(server, history + get.calls, scan, i + 1);
        Run(get.calls + rest.calls,
            Stream([(get.result.value, scan.scores[i])] + rest.result.items, rest.result.failure))
    else
      var rest := MatchesFrom(server, history, scan, i + 1);
      Run(rest.calls, Stream([(Some(MemoryRecord(scan.rows[i], None)), scan.scores[i])] + rest.result.items,
                             rest.result.failure))
  }

  function Min(a: nat, b: nat): (m: nat)
    ensures m <= a && m <= b && (m == a || m == b)
  {
    if a <= b then a else b
  }

  /** The kept rows of a scan from row i on: rows that have a score not below the minimum. */
  function KeptRows(scan: Scan, i: nat): (k: seq<nat>)
    ensures forall j :: 0 <= j < |k| ==> i <= k[j] < |scan.rows| && k[j] < |scan.scores|
  {
    KeptFrom(scan.scores, scan.minRelevanceScore, i, Min(|scan.rows|, |scan.scores|))
  }

  /** Match j carries the score of the j-th kept row. */
  predicate ScoresFollow(s: Stream<Match>, scores: seq<real>, k: seq<nat>)
  {
    |s.items| <= |k| && forall j :: 0 <= j < |s.items| ==> k[j] < |scores| && s.items[j].1 == scores[k[j]]
  }

  /** Match j is the metadata of the j-th kept row, with no embedding, and its score. */
  predicate MetadataOfKept(s: Stream<Match>, rows: seq<string>, scores: seq<real>, k: seq<nat>)
  {
    && |s.items| == |k|
    && forall j :: 0 <= j < |k| ==>
         k[j] < |rows| && k[j] < |scores| && s.items[j] == (Some(MemoryRecord(rows[k[j]], None)), scores[k[j]])
  }

  /** Scores follow the kept rows; with no exception every kept row yields a
      match and every row had a score. */
  lemma {:induction false} MatchScores(server: Server, history: seq<Call>, scan: Scan, i: nat)
    ensures ScoresFollow(MatchesFrom(server, history, scan, i).result, scan.scores, KeptRows(scan, i))
    ensures MatchesFrom(server, history, scan, i).result.failure.None? ==>
      |MatchesFrom(server, history, scan, i).result.items| == |KeptRows(scan, i)| &&
      (i >= |scan.rows| || |scan.rows| <= |scan.scores|)
    decreases |scan.rows| - i
  {
    if i < |scan.rows| && i < |scan.scores| {
      var k := KeptRows(scan, i);
      var tail := KeptRows(scan, i + 1);
      var run := MatchesFrom(server, history, scan, i);
      if scan.scores[i] < scan.minRelevanceScore {
        MatchScores(server, history, scan, i + 1);
        assert k == tail;
      } else {
        assert k == [i] + tail;
        var rest;
        if scan.withEmbeddings {
          var get := GetRun(server, history, scan.collectionName, scan.metadataId(scan.rows[0]), true, NoToken);
          MatchScores(server, history + get.calls, scan, i + 1);
          rest := MatchesFrom(server, history + get.calls, scan, i + 1);
          if get.result.Failure? {
            return;
          }
        } else {
          MatchScores(server, history, scan, i + 1);
          rest := MatchesFrom(server, history, scan, i + 1);
        }
        assert run.result.items == [run.result.items[0]] + rest.result.items;
        assert run.result.failure == rest.result.failure;
        forall j | 0 <= j < |run.result.items|
          ensures run.result.items[j].1 == scan.scores[k[j]]
        {
          if j > 0 {
            assert run.result.items[j] == rest.result.items[j - 1] && k[j] == tail[j - 1];
          }
        }
      }
    }
  }
  /** What the scan loop yields from row i on: every match scores at least the
      minimum, and there are at most as many matches as rows left to scan. */
  lemma MatchesAboveMinimum(server: Server, history: seq<Call>, scan: Scan, i: nat)
    ensures var s := MatchesFrom(server, history, scan, i).result;
      && (i <= |scan.rows| ==> |s.items| <= |scan.rows| - i)
      && forall j :: 0 <= j < |s.items| ==> s.items[j].1 >= scan.minRelevanceScore
  {
    MatchScores(server, history, scan, i);
  }


  /** Without embeddings no call is made, match j is the metadata of the j-th
      kept row with no embedding, and the only exception is a missing score. */
  lemma {:induction false} MatchesWithoutEmbeddings(server: Server, history: seq<Call>, scan: Scan, i: nat)
    requires !scan.withEmbeddings
    ensures MatchesFrom(server, history, scan, i).calls == []
    ensures MetadataOfKept(MatchesFrom(server, history, scan, i).result, scan.rows, scan.scores, KeptRows(scan, i))
    ensures MatchesFrom(server, history, scan, i).result.failure
         == if i < |scan.rows| && |scan.scores| < |scan.rows| then Some(ArgumentOutOfRange) else None
    decreases |scan.rows| - i
  {
    if i < |scan.rows| && i < |scan.scores| {
      MatchesWithoutEmbeddings(server, history, scan, i + 1);
      var rest := MatchesFrom(server, history, scan, i + 1);
      var tail := KeptRows(scan, i + 1);
      var k := KeptRows(scan, i);
      if scan.scores[i] < scan.minRelevanceScore {
        assert k == tail;
      } else {
        var run := MatchesFrom(server, history, scan, i);
        assert k == [i] + tail;
        assert run.result.items == [(Some(MemoryRecord(scan.rows[i], None)), scan.scores[i])] + rest.result.items;
        forall j | 0 <= j < |k|
          ensures run.result.items[j] == (Some(MemoryRecord(scan.rows[k[j]], None)), scan.scores[k[j]])
        {
          if j > 0 {
            assert run.result.items[j] == rest.result.items[j - 1] && k[j] == tail[j - 1];
          }
        }
      }
    }
  }

  /** The single-key query of `GetAsync` for the id in row 0's metadata. */
  function RowZeroQuery(scan: Scan): (c: Call)
    requires |scan.rows| > 0
    ensures c.request == Query(scan.collectionName, "Id in [\"" + scan.metadataId(scan.rows[0]) + "\"]", ["metadata", "embedding"])
  {
    Call(Query(scan.collectionName, KeyFilter(scan.metadataId(scan.rows[0])), QueryFields), NoToken)
  }

  /** With embeddings every call is the same query, for the id in row 0's
      metadata, whatever the row; with no exception there is one per match. */
  lemma {:induction false} MatchesQueryRowZero(server: Server, history: seq<Call>, scan: Scan, i: nat)
    requires scan.withEmbeddings && |scan.rows| > 0
    ensures forall c :: c in MatchesFrom(server, history, scan, i).calls ==> c == RowZeroQuery(scan)
    ensures MatchesFrom(server, history, scan, i).result.failure.None? ==>
      |MatchesFrom(server, history, scan, i).calls| == |MatchesFrom(server, history, scan, i).result.items|
    decreases |scan.rows| - i
  {
    if i < |scan.rows| && i < |scan.scores| {
      var call := RowZeroQuery(scan);
      if scan.scores[i] < scan.minRelevanceScore {
        MatchesQueryRowZero(server, history, scan, i + 1);
      } else {
        var get := GetRun(server, history, scan.collectionName, scan.metadataId(scan.rows[0]), true, NoToken);
        assert get.calls == [call];
        if get.result.Success? {
          MatchesQueryRowZero(server, history + get.calls, scan, i + 1);
          var rest := MatchesFrom(server, history + get.calls, scan, i + 1);
          var calls := MatchesFrom(server, history, scan, i).calls;
          assert calls == [call] + rest.calls;
        }
      }
    }
  }

  /** `GetNearestMatchesAsync`: a top-`limit` search, then the row loop over
      the first column's metadata. */
  function NearestMatchesRun(server: Server, history: seq<Call>, collectionName: string, embedding: Embedding,
                             limit: int, minRelevanceScore: real, withEmbeddings: bool, token: CancellationToken,
                             metadataId: string -> string): (run: Run<Stream<Match>>)
    ensures |run.calls| > 0 && run.calls[0] == Call(Search(NearestSearch(collectionName, embedding, limit)), token)
  {
    var search := Call(Search(NearestSearch(collectionName, embedding, limit)), token);
    var reply := server.search(history, search.request);
    if reply.Failure? then Run([search], Stream([], Some(reply.error)))
    else if reply.value.fieldsData.None? then Run([search], Stream([], Some(ArgumentNull)))
    else
      var fs := reply.value.fieldsData.value;
      if |fs| == 0 || fs[0].RowCount() == 0 then Run([search], Stream([], None))
      else if !fs[0].StringField? then Run([search], Stream([], Some(NullReference)))
      else
        var scan := Scan(collectionName, fs[0].data, reply.value.scores, minRelevanceScore, withEmbeddings, metadataId);
        var rest := MatchesFrom(server, history + [search], scan, 0);
        Run([search] + rest.calls, rest.result)
  }

  /** A plural search whose reply has null columns throws `ArgumentNullException`
      (`Any()` over null); no columns, or a first column without rows, give the
      empty sequence; either way the search is the only call. */
  lemma NearestMatchesWithoutRows(server: Server, history: seq<Call>, collectionName: string, embedding: Embedding,
                                  limit: int, minRelevanceScore: real, withEmbeddings: bool, token: CancellationToken,
                                  metadataId: string -> string)
    requires var reply := server.search(history, Search(NearestSearch(collectionName, embedding, limit)));
      reply.Success? && !HasRows(QueryResult(reply.value.fieldsData))
    ensures var reply := server.search(history, Search(NearestSearch(collectionName, embedding, limit))).value;
      var run := NearestMatchesRun(server, history, collectionName, embedding, limit, minRelevanceScore,
                                   withEmbeddings, token, metadataId);
      && run.calls == [Call(Search(NearestSearch(collectionName, embedding, limit)), token)]
      && run.result == (if reply.fieldsData.None? then Stream([], Some(ArgumentNull)) else Stream([], None))
  {
  }

  /** With an embedding wanted and a readable top hit at or above the minimum:
      the search, then one `GetAsync` query, without token, on the hit's metadata id;
      the match is what that get returns, with the hit's score. */
  lemma NearestMatchWithEmbedding(server: Server, history: seq<Call>, collectionName: string, embedding: Embedding,
                                  minRelevanceScore: real, token: CancellationToken, metadataId: string -> string)
    requires var reply := server.search(history, Search(NearestSearch(collectionName, embedding, 1)));
      && reply.Success? && reply.value.fieldsData.Some? && |reply.value.fieldsData.value| > 0
      && reply.value.fieldsData.value[0].StringField? && |reply.value.fieldsData.value[0].data| > 0
      && |reply.value.scores| > 0 && reply.value.scores[0] >= minRelevanceScore
    ensures var search := Call(Search(NearestSearch(collectionName, embedding, 1)), token);
      var reply := server.search(history, search.request).value;
      var id := metadataId(reply.fieldsData.value[0].data[0]);
      var get := GetRun(server, history + [search], collectionName, id, true, NoToken);
      var run := NearestMatchRun(server, history, collectionName, embedding, minRelevanceScore, true, token, metadataId);
      && run.calls == [search, Call(Query(collectionName, KeyFilter(id), QueryFields), NoToken)]
      && (get.result.Failure? ==> run.result == Failure(get.result.error))
      && (get.result.Success? ==> run.result == Success(Some((get.result.value, reply.scores[0]))))
  {
  }

  /** Without embeddings and with a string first column, the plural search makes
      one call and yields the metadata of each row at or above the minimum, in
      server order, then an index out of range if the scores run out first. */
  lemma NearestMatchesWithoutEmbeddings(server: Server, history: seq<Call>, collectionName: string, embedding: Embedding,
                                        limit: int, minRelevanceScore: real, token: CancellationToken,
                                        metadataId: string -> string)
    requires var reply := server.search(history, Search(NearestSearch(collectionName, embedding, limit)));
      && reply.Success? && reply.value.fieldsData.Some? && |reply.value.fieldsData.value| > 0
      && reply.value.fieldsData.value[0].StringField? && |reply.value.fieldsData.value[0].data| > 0
    ensures var search := Call(Search(NearestSearch(collectionName, embedding, limit)), token);
      var reply := server.search(history, search.request).value;
      var scan := Scan(collectionName, reply.fieldsData.value[0].data, reply.scores, minRelevanceScore, false, metadataId);
      var run := NearestMatchesRun(server, history, collectionName, embedding, limit, minRelevanceScore, false, token, metadataId);
      && run.calls == [search]
      && MetadataOfKept(run.result, scan.rows, scan.scores, KeptRows(scan, 0))
      && run.result.failure == if |scan.scores| < |scan.rows| then Some(ArgumentOutOfRange) else None
  {
    var search := Call(Search(NearestSearch(collectionName, embedding, limit)), token);
    var reply := server.search(history, search.request).value;
    var scan := Scan(collectionName, reply.fieldsData.value[0].data, reply.scores, minRelevanceScore, false, metadataId);
    MatchesWithoutEmbeddings(server, history + [search], scan, 0);
  }

  // ---------------------------------------------------------------------------------------
  // The store

  class MilvusMemoryStore {
    const client: MilvusClient
    const vectorSize: int
    const zillizCloud: bool
    /** The `Id` of a record's metadata, read from its JSON. */
    const metadataId: string -> string

    constructor (client: MilvusClient, vectorSize: int, zillizCloud: bool, metadataId: string -> string)
      ensures this.client == client && this.vectorSize == vectorSize && this.zillizCloud == zillizCloud
      ensures this.metadataId == metadataId
    {
      this.client := client;
      this.vectorSize := vectorSize;
      this.zillizCloud := zillizCloud;
      this.metadataId := metadataId;
    }

    method CreateCollectionAsync(collectionName: string, token: CancellationToken) returns (r: Outcome)
      modifies client
      ensures var run := CreateCollectionRun(client.server, old(client.calls), collectionName, token, vectorSize, zillizCloud);
        client.calls == old(client.calls) + run.calls && r == run.result
    {
      ghost var history := client.calls;
      ghost var all := CreationCalls(collectionName, token, vectorSize, zillizCloud);
      var present := client.HasCollectionAsync(collectionName, token);
      if present.Failure? {
        return Fail(present.error);
      }
      assert client.calls == history + all[..1];
      if !present.value {
        var created := client.CreateCollectionAsync(collectionName, Schema(vectorSize), token);
        assert client.calls == history + all[..2];
        if created.Fail? {
          return created;
        }
        var indexed := client.CreateIndexAsync(collectionName, EmbeddingFieldName, Constants.DefaultIndexName,
                                               if zillizCloud then AutoIndex else IvfFlat, IP, [("nlist", "1024")], token);
        assert client.calls == history + all[..3];
        if indexed.Fail? {
          return indexed;
        }
        r := client.LoadCollectionAsync(collectionName, 1, NoToken);
        assert client.calls == history + all;
        return r;
      }
      return Pass;
    }

    method DeleteCollectionAsync(collectionName: string, token: CancellationToken) returns (r: Outcome)
      modifies client
      ensures client.calls == old(client.calls) + [Call(DropCollection(collectionName), token)]
      ensures r == client.server.status(old(client.calls), DropCollection(collectionName))
    {
      r := client.DropCollectionAsync(collectionName, token);
    }

    method DoesCollectionExistAsync(collectionName: string, token: CancellationToken) returns (r: Result<bool>)
      modifies client
      ensures client.calls == old(client.calls) + [Call(HasCollection(collectionName), token)]
      ensures r == client.server.has(old(client.calls), HasCollection(collectionName))
    {
      r := client.HasCollectionAsync(collectionName, token);
    }

    method GetAsync(collectionName: string, key: string, withEmbedding: bool, token: CancellationToken)
      returns (r: Result<Option<MemoryRecord>>)
      modifies client
      ensures var run := GetRun(client.server, old(client.calls), collectionName, key, withEmbedding, token);
        client.calls == old(client.calls) + run.calls && r == run.result
    {
      var expr := "Id in [\"" + key + "\"]";
      var result := client.QueryAsync(collectionName, expr, [MetadataFieldName, EmbeddingFieldName], token);
      if result.Failure? {
        return Failure(result.error);
      }
      r := DecodeGet(result.value);
    }

    method GetBatchAsync(collectionName: string, keys: seq<string>, withEmbeddings: bool, token: CancellationToken)
      returns (s: Stream<MemoryRecord>)
      modifies client
      ensures var request := Query(collectionName, InFilter(IdFieldName, KeyGroup(keys)), QueryFields);
        var reply := client.server.query(old(client.calls), request);
        && client.calls == old(client.calls) + [Call(request, token)]
        && s == if reply.Failure? then Stream([], Some(reply.error)) else BatchStream(reply.value)
    {
      var keyGroup := GetKeyGroup(keys);
      var expr := IdFieldName + " in [" + keyGroup + "]";
      var result := client.QueryAsync(collectionName, expr, [MetadataFieldName, EmbeddingFieldName], token);
      if result.Failure? {
        return Stream([], Some(result.error));
      }
      s := DecodeBatch(result.value);
    }

    method GetCollectionsAsync(token: CancellationToken) returns (s: Stream<string>)
      modifies client
      ensures var reply := client.server.collections(old(client.calls));
        && client.calls == old(client.calls) + [Call(ShowCollections, token)]
        && (reply.Failure? ==> s == Stream([], Some(reply.error)))
        && (reply.Success? ==>
              s.failure.None? && |s.items| == |reply.value| &&
              forall i :: 0 <= i < |reply.value| ==> s.items[i] == reply.value[i].collectionName)
    {
      var result := client.ShowCollectionsAsync(token);
      if result.Failure? {
        return Stream([], Some(result.error));
      }
      var names: seq<string> := [];
      var i := 0;
      while i < |result.value|
        invariant 0 <= i <= |result.value|
        invariant |names| == i
        invariant forall k :: 0 <= k < i ==> names[k] == result.value[k].collectionName
      {
        names := names + [result.value[i].collectionName];
        i := i + 1;
      }
      return Stream(names, None);
    }

    method GetNearestMatchAsync(collectionName: string, embedding: Embedding, minRelevanceScore: real,
                                withEmbedding: bool, token: CancellationToken)
      returns (r: Result<Option<Match>>)
      modifies client
      ensures var run := NearestMatchRun(client.server, old(client.calls), collectionName, embedding,
                                         minRelevanceScore, withEmbedding, token, metadataId);
        client.calls == old(client.calls) + run.calls && r == run.result
    {
      var result := client.SearchAsync(NearestSearch(collectionName, embedding, 1), token);
      if result.Failure? {
        return Failure(result.error);
      }
      if result.value.fieldsData.None? {
        return Failure(ArgumentNull);
      }
      var fields := result.value.fieldsData.value;
      if |fields| == 0 || fields[0].RowCount() == 0 {
        return Success(None);
      }
      if |result.value.scores| == 0 {
        return Failure(ArgumentOutOfRange);
      }
      var score := result.value.scores[0];
      if score < minRelevanceScore {
        return Success(None);
      }
      if !fields[0].StringField? {
        return Failure(NullReference);
      }
      var metadataField := fields[0];
      if withEmbedding {
        ghost var afterSearch := client.calls;
        var id := metadataId(metadataField.data[0]);
        var record := GetAsync(collectionName, id, withEmbedding, NoToken);
        assert client.calls == afterSearch + GetRun(client.server, afterSearch, collectionName, id, withEmbedding, NoToken).calls;
        if record.Failure? {
          return Failure(record.error);
        }
        return Success(Some((record.value, score)));
      } else {
        return Success(Some((Some(MemoryRecord(metadataField.data[0], None)), score)));
      }
    }

    method GetNearestMatchesAsync(collectionName: string, embedding: Embedding, limit: int, minRelevanceScore: real,
                                  withEmbeddings: bool, token: CancellationToken)
      returns (s: Stream<Match>)
      modifies client
      ensures var run := NearestMatchesRun(client.server, old(client.calls), collectionName, embedding, limit,
                                           minRelevanceScore, withEmbeddings, token, metadataId);
        client.calls == old(client.calls) + run.calls && s == run.result
    {
      var result := client.SearchAsync(NearestSearch(collectionName, embedding, limit), token);
      if result.Failure? {
        return Stream([], Some(result.error));
      }
      if result.value.fieldsData.None? {
        return Stream([], Some(ArgumentNull));
      }
      var fields := result.value.fieldsData.value;
      if |fields| == 0 || fields[0].RowCount() == 0 {
        return Stream([], None);
      }
      if !fields[0].StringField? {
        return Stream([], Some(NullReference));
      }
      var metadataField := fields[0];
      var scores := result.value.scores;
      ghost var scan := Scan(collectionName, metadataField.data, scores, minRelevanceScore, withEmbeddings, metadataId);
      ghost var start := client.calls;
      ghost var total := MatchesFrom(client.server, start, scan, 0);
      assert old(client.calls) + ([Call(Search(NearestSearch(collectionName, embedding, limit)), token)] + total.calls)
          == start + total.calls;
      var items: seq<Match> := [];
      var i := 0;
      while i < |metadataField.data|
        invariant 0 <= i <= |metadataField.data|
        invariant var rest := MatchesFrom(client.server, client.calls, scan, i);
          && client.calls + rest.calls == start + total.calls
          && items + rest.result.items == total.result.items
          && rest.result.failure == total.result.failure
      {
        if i >= |scores| {
          return Stream(items, Some(ArgumentOutOfRange));
        }
        var score := scores[i];
        if score < minRelevanceScore {
          i := i + 1;
          continue;
        }
        if withEmbeddings {
          ghost var before := client.calls;
          var id := metadataId(metadataField.data[0]);
          var record := GetAsync(collectionName, id, withEmbeddings, NoToken);
          ghost var get := GetRun(client.server, before, collectionName, id, true, NoToken);
          assert client.calls == before + get.calls;
          if record.Failure? {
            return Stream(items, Some(record.error));
          }
          ghost var rest := MatchesFrom(client.server, client.calls, scan, i + 1);
          assert (before + get.calls) + rest.calls == before + (get.calls + rest.calls);
          assert (items + [(record.value, score)]) + rest.result.items == items + ([(record.value, score)] + rest.result.items);
          items := items + [(record.value, score)];
        } else {
          ghost var rest := MatchesFrom(client.server, client.calls, scan, i + 1);
          assert (items + [(Some(MemoryRecord(metadataField.data[i], None)), score)]) + rest.result.items
              == items + ([(Some(MemoryRecord(metadataField.data[i], None)), score)] + rest.result.items);
          items := items + [(Some(MemoryRecord(metadataField.data[i], None)), score)];
        }
        i := i + 1;
      }
      return Stream(items, None);
    }

    method RemoveAsync(collectionName: string, key: string, token: CancellationToken) returns (r: Outcome)
      modifies client
      ensures client.calls == old(client.calls) + [Call(Delete(collectionName, KeyFilter(key)), token)]
      ensures var reply := client.server.mutation(old(client.calls), Delete(collectionName, KeyFilter(key)));
        r == if reply.Failure? then Fail(reply.error) else Pass
    {
      var result := client.DeleteAsync(collectionName, "Id in [\"" + key + "\"]", token);
      if result.Failure? {
        return Fail(result.error);
      }
      return Pass;
    }

    /** The filter is over the `embedding` field, not over `Id`. */
    method RemoveBatchAsync(collectionName: string, keys: seq<string>, token: CancellationToken) returns (r: Outcome)
      modifies client
      ensures var request := Delete(collectionName, InFilter(EmbeddingFieldName, KeyGroup(keys)));
        && client.calls == old(client.calls) + [Call(request, token)]
        && r == if client.server.mutation(old(client.calls), request).Failure?
                then Fail(client.server.mutation(old(client.calls), request).error) else Pass
    {
      var keyGroup := GetKeyGroup(keys);
      var result := client.DeleteAsync(collectionName, EmbeddingFieldName + " in [" + keyGroup + "]", token);
      if result.Failure? {
        return Fail(result.error);
      }
      return Pass;
    }

    method UpsertAsync(collectionName: string, record: MemoryRecord, token: CancellationToken) returns (r: Result<string>)
      modifies client
      ensures var request := Insert(collectionName, [ToIdField(record, metadataId), ToFloatField(record), ToMetadataField(record)]);
        && client.calls == old(client.calls) + [Call(request, token)]
        && r == FirstId(client.server.mutation(old(client.calls), request))
    {
      var result := client.InsertAsync(collectionName, [ToIdField(record, metadataId), ToFloatField(record), ToMetadataField(record)], token);
      r := FirstId(result);
    }

    /** No records, or a null sequence: no call and nothing yielded. Otherwise
        one insert of the three columns, then the returned ids in the returned order. */
    method UpsertBatchAsync(collectionName: string, records: Option<seq<MemoryRecord>>, token: CancellationToken)
      returns (s: Stream<string>)
      modifies client
      ensures records.None? || records.value == [] ==> client.calls == old(client.calls) && s == Stream([], None)
      ensures records.Some? && records.value != [] ==>
        var request := Insert(collectionName, BatchColumns(records.value, metadataId));
        var reply := client.server.mutation(old(client.calls), request);
        && client.calls == old(client.calls) + [Call(request, token)]
        && (reply.Failure? ==> s == Stream([], Some(reply.error)))
        && (reply.Success? && reply.value.strIds.None? ==> s == Stream([], Some(NullReference)))
        && (reply.Success? && reply.value.strIds.Some? ==> s == Stream(reply.value.strIds.value, None))
    {
      if records.None? || records.value == [] {
        return Stream([], None);
      }
      var result := client.InsertAsync(collectionName, BatchColumns(records.value, metadataId), token);
      if result.Failure? {
        return Stream([], Some(result.error));
      }
      if result.value.strIds.None? {
        return Stream([], Some(NullReference));
      }
      var data := result.value.strIds.value;
      var ids: seq<string> := [];
      var i := 0;
      while i < |data|
        invariant 0 <= i <= |data|
        invariant ids == data[..i]
      {
        ids := ids + [data[i]];
        i := i + 1;
      }
      assert data[..i] == data;
      return Stream(ids, None);
    }
  }
}
