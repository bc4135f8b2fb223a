# Milvus C# SDK — a Dafny model of its core

This project models part of the Milvus C# SDK along with the Semantic Kernel memory
connector that sits on top of it, and proves properties of the model.

- **The memory store** (`MilvusMemoryStore`). It keeps a memory record in three columns of
  one collection: an `Id` varchar primary key of up to 100 characters, an `embedding` float
  vector of the store's size, and a `metadata` varchar of up to 1000 characters holding the
  record's serialised JSON. Each operation is a method on a class holding a `MilvusClient`.
  The client logs every call it makes, with its cancellation token. The server is a value
  that answers each call as a function of the calls made before it and the request. The
  `ensures` of every store method fix the exact calls it makes, their order, and its result.
  Creation, the single get and the two nearest-match searches, which decode their replies
  or make further calls depending on them, are proved against a specification function
  (a `Run`) that the lemmas reason about. The results include every exception the C# code
  would throw along the way: `InvalidOperationException` from `First`,
  `NullReferenceException` from an `as` cast that yields null, index out of range, and
  `ArgumentNullException` from `Any()` over null. The lazy `IAsyncEnumerable` results become
  a `Stream`: the items produced, then possibly the exception that stopped the enumeration.
- **The gRPC partition operations** (`MilvusGrpcClient.Partition.cs`). Create, has, show,
  load, release and drop all check the status code and throw `MilvusException` unless it is
  `Success`. `ShowPartitions` zips four parallel reply lists. The timestamp goes through an
  explicit wrap-around `ulong`→`long` cast. The in-memory percentage is -1 when the reply
  has none.
- **Five request types** (`GetPartitionStatisticsRequest`, `ReleaseCollectionRequest`,
  `GetIndexStateRequest`, `GetFlushStateRequest`, `GetCompactionStateRequest`). For each:
  creation, validation, and the gRPC and REST forms. Both forms run the same validation
  first.
- **`HttpRequest`**: the five factories and the JSON content they attach.
- **`ParameterUtils.Combine`**: renders a parameter dictionary as `{"k":v, ...}`.
- **`MilvusHealthState`** and its `ToString`.

Behaviours of the source that the model keeps as written, and proves:

- The batch remove filters on `embedding in [...]`, not on `Id`.
- With embeddings requested, the plural nearest-match search fetches every kept hit by the
  id in the metadata of row 0, not of its own row (`MatchesQueryRowZero`).
- Both nearest-match searches call `GetAsync` without passing the caller's cancellation
  token.
- `GetAsync` ignores `withEmbedding` (`GetIgnoresWithEmbedding`).
- Collection creation loads the collection with replica number 1 and no token.

Files: one module per source file (`milvus_memory_store.dfy`,
`milvus_grpc_client_partition.dfy`, one file per request type, `http_request.dfy`,
`parameter_utils.dfy`, `health_state.dfy`). The remaining files are shared pieces:

- `common.dfy`: option, result and exception types;
- `text.dfy`: `IsNullOrWhiteSpace`, `Join` and its lemmas;
- `milvus_client.dfy`: the client whose calls are logged;
- `api_version.dfy`: `ApiVersion.V1` and the default index name, whose values are not part of this model.

## Model

| member | source | states |
|---|---|---|
| MilvusMemoryStore.GetKeyGroup | src/Connectors.Memory.Milvus/MilvusMemoryStore.cs:401-414 | the builder loop gives each key quoted, joined by ", " in input order (`KeyGroup`) |
| MilvusMemoryStore.InFilter | src/Connectors.Memory.Milvus/MilvusMemoryStore.cs:205 | `<field> in [<list>]`: the field name and the list can be cut back out of the filter |
| MilvusMemoryStore.KeyFilter | src/Connectors.Memory.Milvus/MilvusMemoryStore.cs:178 | the single-key filter is exactly `Id in ["key"]` |
| MilvusMemoryStore.EmptyKeyGroup | src/Connectors.Memory.Milvus/MilvusMemoryStore.cs:401-414 | no keys give an empty group |
| MilvusMemoryStore.SingleKeyBatch | src/Connectors.Memory.Milvus/MilvusMemoryStore.cs:204-205 | a batch filter of one key equals the single-key filter |
| MilvusMemoryStore.KeyGroupInOrder | src/Connectors.Memory.Milvus/MilvusMemoryStore.cs:404-411 | the group of two key runs is their groups joined by ", ": keys keep their order |
| MilvusMemoryStore.FirstIndex | src/Connectors.Memory.Milvus/MilvusMemoryStore.cs:189-190 | `First(p => p.FieldName == name)`: the first column so named, none when no column has the name |
| MilvusMemoryStore.Column | src/Connectors.Memory.Milvus/MilvusMemoryStore.cs:189-190 | the column found is the first column with the name (`FirstIndex`); absent only when no column has it |
| MilvusMemoryStore.RecordAt | src/Connectors.Memory.Milvus/MilvusMemoryStore.cs:192-194 | the record of row i is metadata row i with embedding row i |
| MilvusMemoryStore.DecodeGet | src/Connectors.Memory.Milvus/MilvusMemoryStore.cs:184-194 | null exactly when there are no columns or the first has no rows; otherwise success exactly when row 0 is readable, giving the record with its embedding; a missing column throws `InvalidOperationException` |
| MilvusMemoryStore.PairedRows | src/Connectors.Memory.Milvus/MilvusMemoryStore.cs:220-224 | the number of rows with both a metadata and an embedding entry |
| MilvusMemoryStore.BatchStream | src/Connectors.Memory.Milvus/MilvusMemoryStore.cs:212-225 | nothing without columns; item i is the record of row i; with no exception, one item per metadata row (when that happens: `BatchFailsExactly`) |
| MilvusMemoryStore.BatchFailsExactly | src/Connectors.Memory.Milvus/MilvusMemoryStore.cs:212-225 | with columns, the batch yields every row without an exception exactly when both columns exist, the metadata is a string column and every metadata row is readable; a missing column is exactly the `InvalidOperationException` |
| MilvusMemoryStore.DecodeBatch | src/Connectors.Memory.Milvus/MilvusMemoryStore.cs:212-225 | the row loop yields exactly `BatchStream` of the result |
| MilvusMemoryStore.GetIsFirstOfBatch | src/Connectors.Memory.Milvus/MilvusMemoryStore.cs:184-225 | the record a get returns from a result is the first record a batch yields from it |
| MilvusMemoryStore.VectorOf | src/Connectors.Memory.Milvus/MilvusMemoryStore.cs:428 | the vector written for a record is its embedding when it has one |
| MilvusMemoryStore.ToIdFieldBatch | src/Connectors.Memory.Milvus/MilvusMemoryStore.cs:421-424 | an `Id` column with one row per record, row i the id of record i |
| MilvusMemoryStore.ToFloatFieldBatch | src/Connectors.Memory.Milvus/MilvusMemoryStore.cs:431-434 | an `embedding` column with one row per record, row i the vector of record i |
| MilvusMemoryStore.ToMetadataFieldBatch | src/Connectors.Memory.Milvus/MilvusMemoryStore.cs:441-444 | a `metadata` column with one row per record, row i the metadata of record i |
| MilvusMemoryStore.BatchColumns | src/Connectors.Memory.Milvus/MilvusMemoryStore.cs:388-391 | the insert's columns are `Id`, `embedding`, `metadata`, in that order, each with one row per record |
| MilvusMemoryStore.ToIdField | src/Connectors.Memory.Milvus/MilvusMemoryStore.cs:416-419 | the id column of one record is the batch id column of a one-record list |
| MilvusMemoryStore.ToFloatField | src/Connectors.Memory.Milvus/MilvusMemoryStore.cs:426-429 | the embedding column of one record is the batch embedding column of a one-record list |
| MilvusMemoryStore.ToMetadataField | src/Connectors.Memory.Milvus/MilvusMemoryStore.cs:436-439 | the metadata column of one record is the batch metadata column of a one-record list |
| MilvusMemoryStore.SingleUpsertIsBatchOfOne | src/Connectors.Memory.Milvus/MilvusMemoryStore.cs:366-369 | a single upsert writes the same columns as a batch of that record |
| MilvusMemoryStore.BatchColumnsReadBack | src/Connectors.Memory.Milvus/MilvusMemoryStore.cs:386-391 | reading row i of what an upsert wrote gives back record i (when it has an embedding) |
| MilvusMemoryStore.FirstId | src/Connectors.Memory.Milvus/MilvusMemoryStore.cs:372 | the first returned id; a client exception propagates, null ids throw a null reference, no ids index out of range |
| MilvusMemoryStore.Schema | src/Connectors.Memory.Milvus/MilvusMemoryStore.cs:133-136 | three fields, `Id` (100, the one primary key), `embedding` of the store's size, `metadata` (1000) |
| MilvusMemoryStore.IndexRequest | src/Connectors.Memory.Milvus/MilvusMemoryStore.cs:141-148 | index on `embedding`, default index name, inner product, `nlist` 1024; AUTOINDEX exactly for Zilliz Cloud |
| MilvusMemoryStore.CreateCollectionRun | src/Connectors.Memory.Milvus/MilvusMemoryStore.cs:123-153 | one to four calls, always a prefix of check, create, index, load |
| MilvusMemoryStore.CreateWhenPresent | src/Connectors.Memory.Milvus/MilvusMemoryStore.cs:127-129 | an existing collection costs one existence check and nothing else |
| MilvusMemoryStore.CreateWhenAbsent | src/Connectors.Memory.Milvus/MilvusMemoryStore.cs:127-152 | an absent collection: check, create, index, then load with replica 1 and no token |
| MilvusMemoryStore.CreateStopsAtFailure | src/Connectors.Memory.Milvus/MilvusMemoryStore.cs:127-152 | the call that throws is the last one made and its exception is the result; the existence check before it answered false and every step between passed |
| MilvusMemoryStore.GetRun | src/Connectors.Memory.Milvus/MilvusMemoryStore.cs:178-194 | one query on `Id in ["key"]` for metadata and embedding, then `DecodeGet` of the reply |
| MilvusMemoryStore.GetIgnoresWithEmbedding | src/Connectors.Memory.Milvus/MilvusMemoryStore.cs:172-195 | the `withEmbedding` flag does not change calls or result |
| MilvusMemoryStore.NearestSearch | src/Connectors.Memory.Milvus/MilvusMemoryStore.cs:247-255 | search on `embedding`, outputting `metadata` only, with the given top-k and the one query vector |
| MilvusMemoryStore.NearestMatchRun | src/Connectors.Memory.Milvus/MilvusMemoryStore.cs:239-281 | the first call is always the top-1 search |
| MilvusMemoryStore.NearestMatchWithoutRows | src/Connectors.Memory.Milvus/MilvusMemoryStore.cs:257-260 | a reply with null columns throws `ArgumentNullException`; no columns or an empty first column give null; either way after the search alone |
| MilvusMemoryStore.NearestMatchThreshold | src/Connectors.Memory.Milvus/MilvusMemoryStore.cs:262-279 | with or without embedding, a readable top hit is dropped exactly when its score is below the minimum, and a dropped hit costs the search alone; kept without embedding, it is its metadata with no embedding |
| MilvusMemoryStore.NearestMatchWithEmbedding | src/Connectors.Memory.Milvus/MilvusMemoryStore.cs:268-274 | with an embedding wanted: the search, then one token-less query on the hit's metadata id; the match is that get's result with the hit's score |
| MilvusMemoryStore.NearestMatchesWithoutEmbeddings | src/Connectors.Memory.Milvus/MilvusMemoryStore.cs:293-329 | without embeddings: only the search call; match j is the metadata of the j-th row at or above the minimum; out of range exactly when scores run out |
| MilvusMemoryStore.KeptFrom | src/Connectors.Memory.Milvus/MilvusMemoryStore.cs:310-316 | only indices in range whose score is at least the minimum, in strictly ascending order |
| MilvusMemoryStore.KeptRowsComplete | src/Connectors.Memory.Milvus/MilvusMemoryStore.cs:312-316 | every row whose score is at least the minimum (an equal score included) is kept |
| MilvusMemoryStore.Min | src/Connectors.Memory.Milvus/MilvusMemoryStore.cs:310-312 | the smaller of two lengths |
| MilvusMemoryStore.KeptRows | src/Connectors.Memory.Milvus/MilvusMemoryStore.cs:310-316 | every kept row has both a metadata row and a score |
| MilvusMemoryStore.MatchScores | src/Connectors.Memory.Milvus/MilvusMemoryStore.cs:310-329 | match j carries the score of the j-th kept row; with no exception every kept row yields a match and every row had a score |
| MilvusMemoryStore.MatchesWithoutEmbeddings | src/Connectors.Memory.Milvus/MilvusMemoryStore.cs:310-329 | without embeddings there are no calls, match j is the metadata of the j-th kept row, and the only exception is a missing score |
| MilvusMemoryStore.RowZeroQuery | src/Connectors.Memory.Milvus/MilvusMemoryStore.cs:320-321 | the query of the nested get is on the id in row 0's metadata |
| MilvusMemoryStore.MatchesAboveMinimum | src/Connectors.Memory.Milvus/MilvusMemoryStore.cs:310-329 | the scan loop (`MatchesFrom`) yields only matches scoring at least the minimum, at most one per row left to scan |
| MilvusMemoryStore.MatchesQueryRowZero | src/Connectors.Memory.Milvus/MilvusMemoryStore.cs:318-322 | with embeddings every call is that same row-0 query; with no exception there is one per match |
| MilvusMemoryStore.NearestMatchesRun | src/Connectors.Memory.Milvus/MilvusMemoryStore.cs:284-330 | the first call is always the top-`limit` search |
| MilvusMemoryStore.NearestMatchesWithoutRows | src/Connectors.Memory.Milvus/MilvusMemoryStore.cs:303-306 | a reply with null columns ends in `ArgumentNullException`; no columns or an empty first column give the empty sequence; either way after the search alone |
| MilvusMemoryStore.MilvusMemoryStore.constructor | src/Connectors.Memory.Milvus/MilvusMemoryStore.cs:39-49 | keeps the client, the vector size and the Zilliz flag |
| MilvusMemoryStore.MilvusMemoryStore.CreateCollectionAsync | src/Connectors.Memory.Milvus/MilvusMemoryStore.cs:123-153 | logs exactly the calls of `CreateCollectionRun` and returns its result |
| MilvusMemoryStore.MilvusMemoryStore.DeleteCollectionAsync | src/Connectors.Memory.Milvus/MilvusMemoryStore.cs:156-161 | one drop call; the server's outcome |
| MilvusMemoryStore.MilvusMemoryStore.DoesCollectionExistAsync | src/Connectors.Memory.Milvus/MilvusMemoryStore.cs:164-169 | one existence call; the server's answer |
| MilvusMemoryStore.MilvusMemoryStore.GetAsync | src/Connectors.Memory.Milvus/MilvusMemoryStore.cs:172-195 | logs exactly the calls of `GetRun` and returns its result |
| MilvusMemoryStore.MilvusMemoryStore.GetBatchAsync | src/Connectors.Memory.Milvus/MilvusMemoryStore.cs:197-226 | one query on `Id in [group]`; yields `BatchStream` of the reply |
| MilvusMemoryStore.MilvusMemoryStore.GetCollectionsAsync | src/Connectors.Memory.Milvus/MilvusMemoryStore.cs:229-236 | one listing call; yields every collection name in server order |
| MilvusMemoryStore.MilvusMemoryStore.GetNearestMatchAsync | src/Connectors.Memory.Milvus/MilvusMemoryStore.cs:239-281 | logs exactly the calls of `NearestMatchRun` and returns its result |
| MilvusMemoryStore.MilvusMemoryStore.GetNearestMatchesAsync | src/Connectors.Memory.Milvus/MilvusMemoryStore.cs:284-330 | logs exactly the calls of `NearestMatchesRun` and yields its stream |
| MilvusMemoryStore.MilvusMemoryStore.RemoveAsync | src/Connectors.Memory.Milvus/MilvusMemoryStore.cs:333-342 | one delete on `Id in ["key"]` |
| MilvusMemoryStore.MilvusMemoryStore.RemoveBatchAsync | src/Connectors.Memory.Milvus/MilvusMemoryStore.cs:345-356 | one delete on `embedding in [group]` |
| MilvusMemoryStore.MilvusMemoryStore.UpsertAsync | src/Connectors.Memory.Milvus/MilvusMemoryStore.cs:359-373 | one insert of the record's three columns; `FirstId` of the reply |
| MilvusMemoryStore.MilvusMemoryStore.UpsertBatchAsync | src/Connectors.Memory.Milvus/MilvusMemoryStore.cs:376-398 | no records: no call and nothing yielded; else one insert of `BatchColumns` and the returned ids in order |
| MilvusClient.MilvusClient.HasCollectionAsync | src/IO.Milvus/Client/IMilvusClient.cs:71-74 | one logged call; the server's answer for it |
| MilvusClient.MilvusClient.CreateCollectionAsync | src/IO.Milvus/Client/IMilvusClient.cs:54-59 | one logged call with the defaults Session consistency and one shard |
| MilvusClient.MilvusClient.CreateIndexAsync | src/IO.Milvus/Client/IMilvusClient.cs:507-514 | one logged call; the server's outcome |
| MilvusClient.MilvusClient.LoadCollectionAsync | src/IO.Milvus/Client/IMilvusClient.cs:91-94 | one logged call with the given replica number |
| MilvusClient.MilvusClient.DropCollectionAsync | src/IO.Milvus/Client/IMilvusClient.cs:32-34 | one logged call; the server's outcome |
| MilvusClient.MilvusClient.ShowCollectionsAsync | src/IO.Milvus/Client/IMilvusClient.cs:114-117 | one logged call; the server's list |
| MilvusClient.MilvusClient.QueryAsync | src/IO.Milvus/Client/IMilvusClient.cs:471-481 | one logged call; the server's result |
| MilvusClient.MilvusClient.SearchAsync | src/IO.Milvus/Client/IMilvusClient.cs:374-376 | one logged call; the server's result |
| MilvusClient.MilvusClient.InsertAsync | src/IO.Milvus/Client/IMilvusClient.cs:348-352 | one logged call; the server's mutation result |
| MilvusClient.MilvusClient.DeleteAsync | src/IO.Milvus/Client/IMilvusClient.cs:362-366 | one logged call; the server's mutation result |
| MilvusGrpcClientPartition.ToInt64 | src/IO.Milvus/Client/gRPC/MilvusGrpcClient.Partition.cs:158 | the `(long)` cast: identity below 2^63, minus 2^64 from there; congruent modulo 2^64 |
| MilvusGrpcClientPartition.CheckStatus | src/IO.Milvus/Client/gRPC/MilvusGrpcClient.Partition.cs:28-32 | passes exactly on `Success`; otherwise `MilvusException` with the code and reason |
| MilvusGrpcClientPartition.CreatePartition | src/IO.Milvus/Client/gRPC/MilvusGrpcClient.Partition.cs:15-33 | passes exactly on `Success`; otherwise `MilvusException` with the code and reason |
| MilvusGrpcClientPartition.HasPartition | src/IO.Milvus/Client/gRPC/MilvusGrpcClient.Partition.cs:36-56 | on `Success` the reply's value; otherwise the status's exception |
| MilvusGrpcClientPartition.LoadPartitions | src/IO.Milvus/Client/gRPC/MilvusGrpcClient.Partition.cs:81-102 | passes exactly on `Success`; otherwise `MilvusException` with the code and reason |
| MilvusGrpcClientPartition.ReleasePartition | src/IO.Milvus/Client/gRPC/MilvusGrpcClient.Partition.cs:105-124 | passes exactly on `Success`; otherwise `MilvusException` with the code and reason |
| MilvusGrpcClientPartition.DropPartitions | src/IO.Milvus/Client/gRPC/MilvusGrpcClient.Partition.cs:127-145 | passes exactly on `Success`; otherwise `MilvusException` with the code and reason |
| MilvusGrpcClientPartition.PartitionAt | src/IO.Milvus/Client/gRPC/MilvusGrpcClient.Partition.cs:155-159 | entry i of each list, the cast timestamp, and -1 for the percentage when there are none |
| MilvusGrpcClientPartition.ToPartitions | src/IO.Milvus/Client/gRPC/MilvusGrpcClient.Partition.cs:148-161 | null ids: empty; otherwise success exactly when every row is readable, one partition per id, partition i = `PartitionAt(i)`; else index out of range |
| MilvusGrpcClientPartition.ShowPartitions | src/IO.Milvus/Client/gRPC/MilvusGrpcClient.Partition.cs:59-78 | a failing status throws its exception before any row is read; otherwise the result of `ToPartitions` |
| MilvusGrpcClientPartition.NoPercentagesMeansMinusOne | src/IO.Milvus/Client/gRPC/MilvusGrpcClient.Partition.cs:159 | a null or empty percentage list gives -1 for every partition |
| MilvusGrpcClientPartition.EqualLengthsReadable | src/IO.Milvus/Client/gRPC/MilvusGrpcClient.Partition.cs:153-159 | lists as long as the id list (percentages absent, empty or full) never go out of range |
| GetPartitionStatisticsRequest.Create | src/IO.Milvus/ApiSchema/GetPartitionStatisticsRequest.cs:34-40 | stores the three names unchanged |
| GetPartitionStatisticsRequest.Validate | src/IO.Milvus/ApiSchema/GetPartitionStatisticsRequest.cs:63-68 | fails exactly when some name is null or blank, with an argument exception |
| GetPartitionStatisticsRequest.BuildGrpc | src/IO.Milvus/ApiSchema/GetPartitionStatisticsRequest.cs:42-52 | fails exactly when validation does, with its exception; otherwise the message carries the three names |
| GetPartitionStatisticsRequest.BuildRest | src/IO.Milvus/ApiSchema/GetPartitionStatisticsRequest.cs:54-61 | fails exactly when validation does; otherwise a GET to `/partition/statistics` whose body is the request |
| GetPartitionStatisticsRequest.BuildersAgree | src/IO.Milvus/ApiSchema/GetPartitionStatisticsRequest.cs:42-61 | the gRPC and REST forms fail on the same requests with the same exception |
| GetPartitionStatisticsRequest.CreateThenBuild | src/IO.Milvus/ApiSchema/GetPartitionStatisticsRequest.cs:34-52 | non-blank names build into a message carrying exactly those names |
| ReleaseCollectionRequest.Create | src/IO.Milvus/ApiSchema/ReleaseCollectionRequest.cs:31-34 | stores both names unchanged |
| ReleaseCollectionRequest.Validate | src/IO.Milvus/ApiSchema/ReleaseCollectionRequest.cs:55-59 | fails exactly when a name is null or blank, with an argument exception |
| ReleaseCollectionRequest.BuildGrpc | src/IO.Milvus/ApiSchema/ReleaseCollectionRequest.cs:36-44 | fails exactly when validation does; otherwise the message carries both names |
| ReleaseCollectionRequest.BuildRest | src/IO.Milvus/ApiSchema/ReleaseCollectionRequest.cs:46-53 | fails exactly when validation does; otherwise a DELETE to `/collection/load` whose body is the request |
| ReleaseCollectionRequest.BuildersAgree | src/IO.Milvus/ApiSchema/ReleaseCollectionRequest.cs:36-53 | both forms fail on the same requests with the same exception |
| ReleaseCollectionRequest.CreateThenBuild | src/IO.Milvus/ApiSchema/ReleaseCollectionRequest.cs:31-44 | non-blank names build into a message carrying exactly those names |
| GetIndexStateRequest.Create | src/IO.Milvus/ApiSchema/GetIndexStateRequest.cs:22-25 | stores the three names unchanged |
| GetIndexStateRequest.Validate | src/IO.Milvus/ApiSchema/GetIndexStateRequest.cs:49-54 | fails exactly when some name is null or blank, with an argument exception |
| GetIndexStateRequest.BuildGrpc | src/IO.Milvus/ApiSchema/GetIndexStateRequest.cs:27-37 | fails exactly when validation does; otherwise the message carries the three names |
| GetIndexStateRequest.BuildRest | src/IO.Milvus/ApiSchema/GetIndexStateRequest.cs:39-47 | fails exactly when validation does; otherwise a GET to `/state` whose body is the request |
| GetIndexStateRequest.BuildersAgree | src/IO.Milvus/ApiSchema/GetIndexStateRequest.cs:27-47 | both forms fail on the same requests with the same exception |
| GetIndexStateRequest.CreateThenBuild | src/IO.Milvus/ApiSchema/GetIndexStateRequest.cs:22-37 | non-blank names build into a message carrying exactly those names |
| GetFlushStateRequest.Create | src/IO.Milvus/ApiSchema/GetFlushStateRequest.cs:23-26 | stores the id list unchanged |
| GetFlushStateRequest.Validate | src/IO.Milvus/ApiSchema/GetFlushStateRequest.cs:38-41 | fails exactly on a null or empty id list, with "SegmentIds Cannot be null or empty." |
| GetFlushStateRequest.BuildGrpc | src/IO.Milvus/ApiSchema/GetFlushStateRequest.cs:43-49 | fails exactly when validation does; otherwise the message holds the same ids in the same order |
| GetFlushStateRequest.BuildRest | src/IO.Milvus/ApiSchema/GetFlushStateRequest.cs:28-36 | fails exactly when validation does; otherwise a GET to `/persist/state` whose body is the request |
| GetFlushStateRequest.BuildersAgree | src/IO.Milvus/ApiSchema/GetFlushStateRequest.cs:28-49 | both forms fail on the same requests with the same exception |
| GetCompactionStateRequest.Create | src/IO.Milvus/ApiSchema/GetCompactionStateRequest.cs:22-25 | stores the id unchanged |
| GetCompactionStateRequest.Validate | src/IO.Milvus/ApiSchema/GetCompactionStateRequest.cs:46-49 | fails exactly when the id is not positive, with "Invalid collection id" |
| GetCompactionStateRequest.BuildGrpc | src/IO.Milvus/ApiSchema/GetCompactionStateRequest.cs:27-35 | fails exactly on a non-positive id; otherwise the message carries the id |
| GetCompactionStateRequest.BuildRest | src/IO.Milvus/ApiSchema/GetCompactionStateRequest.cs:37-44 | fails exactly on a non-positive id; otherwise a GET to `/compaction/state` with no content |
| GetCompactionStateRequest.BuildersAgree | src/IO.Milvus/ApiSchema/GetCompactionStateRequest.cs:27-44 | both forms fail on the same requests with the same exception |
| GetCompactionStateRequest.RestIgnoresId | src/IO.Milvus/ApiSchema/GetCompactionStateRequest.cs:37-44 | every valid id gives the same REST request: the id is not sent |
| HttpRequest.GetJsonContent | src/IO.Milvus/Client/REST/HttpRequest.cs:49-58 | no payload: no content; a string is sent verbatim; any other object is serialised; UTF-8 and `application/json` |
| HttpRequest.ContentKeepsPayload | src/IO.Milvus/Client/REST/HttpRequest.cs:49-58 | the payload can be read back from the content it produced |
| HttpRequest.CreateGetRequest | src/IO.Milvus/Client/REST/HttpRequest.cs:9-15 | method `GET`, the url, and the content of the payload |
| HttpRequest.CreatePostRequest | src/IO.Milvus/Client/REST/HttpRequest.cs:17-23 | method `POST`, the url, and the content of the payload |
| HttpRequest.CreatePutRequest | src/IO.Milvus/Client/REST/HttpRequest.cs:25-31 | method `PUT`, the url, and the content of the payload |
| HttpRequest.CreatePatchRequest | src/IO.Milvus/Client/REST/HttpRequest.cs:33-39 | method `PATCH`, the url, and the content of the payload |
| HttpRequest.CreateDeleteRequest | src/IO.Milvus/Client/REST/HttpRequest.cs:41-47 | method `DELETE`, the url, and the content of the payload |
| HttpRequest.MethodTokensDistinct | src/IO.Milvus/Client/REST/HttpRequest.cs:9-47 | the five factories send five different method tokens |
| ParameterUtils.EntryTextParts | src/IO.Milvus/Utils/ParameterUtils.cs:18 | an entry's text is `"`, the key, `":`, then the value (empty for null): both can be cut back out |
| ParameterUtils.EntryTexts | src/IO.Milvus/Utils/ParameterUtils.cs:16-18 | one entry text per parameter, in order |
| ParameterUtils.Combine | src/IO.Milvus/Utils/ParameterUtils.cs:9-28 | the loop gives exactly `Rendered`: the entries in order, joined by ", ", in braces |
| ParameterUtils.EmptyIsBraces | src/IO.Milvus/Utils/ParameterUtils.cs:12-27 | no parameters give `{}` |
| ParameterUtils.AlwaysBraced | src/IO.Milvus/Utils/ParameterUtils.cs:13-26 | the text opens with `{` and closes with `}` |
| ParameterUtils.SingleEntry | src/IO.Milvus/Utils/ParameterUtils.cs:18-23 | one parameter gives `{"key":value}` with no separator |
| ParameterUtils.EntriesInOrder | src/IO.Milvus/Utils/ParameterUtils.cs:16-24 | the text of two parameter runs is their inner texts joined by ", " |
| ParameterUtils.SeparatorCount | src/IO.Milvus/Utils/ParameterUtils.cs:20-23 | length is 2 plus the entry lengths plus 2 per separator, one fewer separator than entries |
| ParameterUtils.NoTrailingSeparator | src/IO.Milvus/Utils/ParameterUtils.cs:20-26 | the last entry follows one `, ` and is followed directly by `}` |
| HealthState.Create | src/IO.Milvus/HealthState.cs:10-18 | keeps the flag, the message and the code |
| HealthState.ToString | src/IO.Milvus/HealthState.cs:38-47 | `{IsHealthy:True}` when healthy; otherwise the flag, then the code, then the message |
| HealthState.HealthyHidesError | src/IO.Milvus/HealthState.cs:40-46 | all healthy states print the same text |
| HealthState.FlagIsReadable | src/IO.Milvus/HealthState.cs:40 | character 11 of the text is `T` exactly when healthy |
| HealthState.ErrorIsReadable | src/IO.Milvus/HealthState.cs:43 | an unhealthy state's code and message can be cut back out of its text |

## Left out

- Logging (`ILogger`) is left out: it has no effect on results.
- The host/port constructors, which build a gRPC or REST client, are left out. The store takes any client.
- The transports are left out: gRPC channels, HTTP, authentication and the wire encodings. The server is a function from the earlier calls and the request to the reply.
- JSON is left out: serialising a payload and deserialising a record's metadata.
  - `MemoryRecord.FromJsonMetadata` keeps the metadata text as it is.
  - The id of a record's metadata is a function given to the store (`metadataId`). A metadata text that does not parse, or parses to null, is not modelled.
- Cancellation is logged with each call and has no other effect.
- Asynchrony is left out: each awaited call happens at its place in the sequence.
- `MilvusGrpcClientPartition.CreatePartition`: a partition operation takes the server's reply as its input. Building its request and sending it are not part of this model; those request types are not core.
- `MilvusGrpcClientPartition.ShowPartitions`: `TimestampUtils.GetTimeFromTimstamp` is kept symbolic, as `TimeFromTimestamp` of the cast value.
- `MilvusMemoryStore.VectorOf`: a record without an embedding is written with the empty vector. This assumes the default `Embedding<float>` exposes an empty vector.
- `MilvusMemoryStore.MilvusMemoryStore.GetBatchAsync`: a null key sequence, which would throw in `ToList`, is not modelled. Keys are a sequence.
- Other nulls not modelled: a null `keys` in `RemoveBatchAsync` (its `foreach` would throw `NullReferenceException`), a null key inside a key sequence (interpolation would write it as the empty string), and a null dictionary passed to `Combine`. Keys are non-null strings and the dictionary is a sequence; a null dictionary value is modelled, and written as the empty string.
- Floating point: scores and vector components are modelled as reals.
- Dictionary order: `ParameterUtils.Combine` follows the order of the entries, and dictionary enumeration order is the sequence order given. The same holds for the `extraParams` and search parameter lists.
- `ApiVersion.V1` and `Constants.DEFAULT_INDEX_NAME`: their values are not part of this model and are kept as constants of unknown value.
- The validation messages of the name checks (`Verify.NotNullOrWhiteSpace`) are modelled as the property name. `Verify` is not part of this model.
- `MilvusClient.MilvusClient.SearchAsync`: search parameters beyond those the store sets (partitions, travel and guarantee timestamps) are not modelled. The same holds for query options beyond collection, expression and output fields, and for the `partitionName` argument of `InsertAsync` and `DeleteAsync`, which the store leaves at its default `""`. Likewise `HasCollectionAsync`'s `dateTime` and `ShowCollectionsAsync`'s `collectionNames` and `showType` are not modelled; the store always leaves them at `null` and `ShowType.All`.
