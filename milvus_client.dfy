/** The part of the client contract (`IMilvusClient`) that the memory store
    uses, with the column model it exchanges. The server is left open: a
    `Server` value gives the reply to each call as a function of the calls made
    before it and of the request, so any scripted server can be plugged in.
    `MilvusClient` records every call it is asked to make. */
module MilvusClient {
  import opened Common

  /** A float vector; arithmetic on its entries is not modelled. */
  type Embedding = seq<real>

  /** A column: a name and one value per row. */
  datatype Field =
    | StringField(name: string, data: seq<string>)              // `Field<string>` (varchar)
    | FloatVectorField(name: string, vectors: seq<Embedding>)   // `FloatVectorField`
    | OtherField(name: string, rowCount: nat)                   // a column of any other kind
  {
    function RowCount(): (n: nat)
      ensures StringField? ==> n == |data|
      ensures FloatVectorField? ==> n == |vectors|
    {
      match this
      case StringField(_, d) => |d|
      case FloatVectorField(_, v) => |v|
      case OtherField(_, n) => n
    }
  }

  /** A field definition of a collection schema. */
  datatype FieldType =
    | VarcharType(name: string, maxLength: int, isPrimaryKey: bool)
    | FloatVectorType(name: string, dimension: int)
  {
    predicate IsPrimaryKey() { VarcharType? && isPrimaryKey }
  }

  datatype IndexType = AutoIndex | IvfFlat
  datatype MetricType = IP
  datatype ConsistencyLevel = Strong | Session | Bounded

  /** A cancellation token, by identity; `NoToken` is `CancellationToken.None`,
      what a call receives when none is passed. */
  datatype CancellationToken = CancellationToken(id: nat)
  const NoToken := CancellationToken(0)

  datatype SearchParameters = SearchParameters(
    collectionName: string,
    vectorFieldName: string,
    outputFields: seq<string>,
    consistencyLevel: ConsistencyLevel,
    topK: int,
    vectors: seq<Embedding>,
    metricType: MetricType,
    parameters: seq<(string, string)>)

  /** `MilvusQueryResult`: the columns, possibly null. */
  datatype QueryResult = QueryResult(fieldsData: Option<seq<Field>>)

  /** `MilvusSearchResult.Results`: the columns of the hits and their scores. */
  datatype SearchResult = SearchResult(fieldsData: Option<seq<Field>>, scores: seq<real>)

  /** `MilvusMutationResult`: the string ids (`Ids.IdField.StrId.Data`), null when the ids are not strings. */
  datatype MutationResult = MutationResult(strIds: Option<seq<string>>)

  datatype MilvusCollection = MilvusCollection(collectionName: string)

  /** One request to the server, with the arguments the caller gave. */
  datatype Request =
    | HasCollection(collectionName: string)
    | CreateCollection(collectionName: string, fieldTypes: seq<FieldType>, consistencyLevel: ConsistencyLevel, shardsNum: int)
    | CreateIndex(collectionName: string, fieldName: string, indexName: string, indexType: IndexType,
                  metricType: MetricType, extraParams: seq<(string, string)>)
    | LoadCollection(collectionName: string, replicaNumber: int)
    | DropCollection(collectionName: string)
    | ShowCollections
    | Query(collectionName: string, expr: string, outputFields: seq<string>)
    | Search(parameters: SearchParameters)
    | Insert(collectionName: string, fields: seq<Field>)
    | Delete(collectionName: string, expr: string)

  /** One logged call: the request and the cancellation token it was given. */
  datatype Call = Call(request: Request, token: CancellationToken)

  /** A server: each reply depends on the calls made so far and the request. */
  datatype Server = Server(
    status: (seq<Call>, Request) -> Outcome,
    has: (seq<Call>, Request) -> Result<bool>,
    collections: seq<Call> -> Result<seq<MilvusCollection>>,
    query: (seq<Call>, Request) -> Result<QueryResult>,
    search: (seq<Call>, Request) -> Result<SearchResult>,
    mutation: (seq<Call>, Request) -> Result<MutationResult>)

  class MilvusClient {
    /** Every call made through this client, oldest first. */
    var calls: seq<Call>
    const server: Server

    constructor (server: Server)
      ensures this.server == server && calls == []
    {
      this.server := server;
      calls := [];
    }

    method HasCollectionAsync(collectionName: string, token: CancellationToken) returns (r: Result<bool>)
      modifies this
      ensures calls == old(calls) + [Call(HasCollection(collectionName), token)]
      ensures r == server.has(old(calls), HasCollection(collectionName))
    {
      var request := HasCollection(collectionName);
      r := server.has(calls, request);
      calls := calls + [Call(request, token)];
    }

    method CreateCollectionAsync(collectionName: string, fieldTypes: seq<FieldType>, token: CancellationToken)
      returns (r: Outcome)
      modifies this
      ensures calls == old(calls) + [Call(CreateCollection(collectionName, fieldTypes, Session, 1), token)]
      ensures r == server.status(old(calls), CreateCollection(collectionName, fieldTypes, Session, 1))
    {
      var request := CreateCollection(collectionName, fieldTypes, Session, 1);
      r := server.status(calls, request);
      calls := calls + [Call(request, token)];
    }

    method CreateIndexAsync(collectionName: string, fieldName: string, indexName: string, indexType: IndexType,
                            metricType: MetricType, extraParams: seq<(string, string)>, token: CancellationToken)
      returns (r: Outcome)
      modifies this
      ensures calls == old(calls) + [Call(CreateIndex(collectionName, fieldName, indexName, indexType, metricType, extraParams), token)]
      ensures r == server.status(old(calls), CreateIndex(collectionName, fieldName, indexName, indexType, metricType, extraParams))
    {
      var request := CreateIndex(collectionName, fieldName, indexName, indexType, metricType, extraParams);
      r := server.status(calls, request);
      calls := calls + [Call(request, token)];
    }

    method LoadCollectionAsync(collectionName: string, replicaNumber: int, token: CancellationToken) returns (r: Outcome)
      modifies this
      ensures calls == old(calls) + [Call(LoadCollection(collectionName, replicaNumber), token)]
      ensures r == server.status(old(calls), LoadCollection(collectionName, replicaNumber))
    {
      var request := LoadCollection(collectionName, replicaNumber);
      r := server.status(calls, request);
      calls := calls + [Call(request, token)];
    }

    method DropCollectionAsync(collectionName: string, token: CancellationToken) returns (r: Outcome)
      modifies this
      ensures calls == old(calls) + [Call(DropCollection(collectionName), token)]
      ensures r == server.status(old(calls), DropCollection(collectionName))
    {
      var request := DropCollection(collectionName);
      r := server.status(calls, request);
      calls := calls + [Call(request, token)];
    }

    method ShowCollectionsAsync(token: CancellationToken) returns (r: Result<seq<MilvusCollection>>)
      modifies this
      ensures calls == old(calls) + [Call(ShowCollections, token)]
      ensures r == server.collections(old(calls))
    {
      r := server.collections(calls);
      calls := calls + [Call(ShowCollections, token)];
    }

    method QueryAsync(collectionName: string, expr: string, outputFields: seq<string>, token: CancellationToken)
      returns (r: Result<QueryResult>)
      modifies this
      ensures calls == old(calls) + [Call(Query(collectionName, expr, outputFields), token)]
      ensures r == server.query(old(calls), Query(collectionName, expr, outputFields))
    {
      var request := Query(collectionName, expr, outputFields);
      r := server.query(calls, request);
      calls := calls + [Call(request, token)];
    }

    method SearchAsync(parameters: SearchParameters, token: CancellationToken) returns (r: Result<SearchResult>)
      modifies this
      ensures calls == old(calls) + [Call(Search(parameters), token)]
      ensures r == server.search(old(calls), Search(parameters))
    {
      r := server.search(calls, Search(parameters));
      calls := calls + [Call(Search(parameters), token)];
    }

    method InsertAsync(collectionName: string, fields: seq<Field>, token: CancellationToken)
      returns (r: Result<MutationResult>)
      modifies this
      ensures calls == old(calls) + [Call(Insert(collectionName, fields), token)]
      ensures r == server.mutation(old(calls), Insert(collectionName, fields))
    {
      var request := Insert(collectionName, fields);
      r := server.mutation(calls, request);
      calls := calls + [Call(request, token)];
    }

    method DeleteAsync(collectionName: string, expr: string, token: CancellationToken)
      returns (r: Result<MutationResult>)
      modifies this
      ensures calls == old(calls) + [Call(Delete(collectionName, expr), token)]
      ensures r == server.mutation(old(calls), Delete(collectionName, expr))
    {
      var request := Delete(collectionName, expr);
      r := server.mutation(calls, request);
      calls := calls + [Call(request, token)];
    }
  }
}
