# Table values and the block-blob commit protocol of the Azure Storage C++ client

This project models two parts of the Azure Storage client library for C++.

**The table value layer and its string builders** (`includes/was/table.h`):
- `entity_property` is a class with three fields: a type tag, a null flag and the value held as text. It has typed constructors, typed setters, and typed getters that check the tag before decoding the text.
- Integers are written with `ostream <<` and read back with `istream >>`. Reading skips white space first; when nothing is left, the extraction fails and stores nothing, and the getter returns its uninitialized local, which is modelled as a parameter. Otherwise reading follows the C++11 `num_get` rules: a sign is read, then digits; text with no digits gives 0, and a value out of range is clamped.
- `table_entity` and the `table_operation` factories are values. An entity holds copies of its properties (`PropertyValue`), as the C++ map of `entity_property` objects does.
- `table_batch_operation` is an append-only list of operations.
- `table_query` is a class with its setters, `combine_filter_conditions`, and the bool/GUID/int32/int64 overloads of `generate_filter_condition`.

**The block-blob store that `tests/cloud_block_blob_test.cpp` drives:**
- A `cloud_block_blob` is a class with a committed block list, a staged (uncommitted) block list and an etag.
- `upload_block` chooses the digest header to send, is rejected when the header does not match the bytes, and otherwise stages the block.
- `upload_block_list` resolves every entry of the request (committed, uncommitted or latest) or rejects the whole request. The resolved blocks, in request order and with repeats, become the committed list.
- `download_block_list` lists the committed blocks, the staged blocks, or both.
- Downloading returns the committed blocks' data concatenated.
- Upload planning from a stream: which uploads are refused and with which exception, whether the data goes out in one put or as blocks, and how it is cut into blocks. The library's `upload_from_stream` code is not part of this model. The rule is the one fixed by the expected request counts and exceptions in the upload tests of `tests/cloud_block_blob_test.cpp` (lines 148-331).
- Each modelled test is a method that makes the test's calls in the test's order. Its contract is what the test checks.

Code outside the model is a function-typed parameter: base64, `uuid_to_string`, MD5, `generate_filter_condition_impl`, and the naming of block ids (any injective naming; the tests use base64 of the index). A GUID is modelled by its text. base64 decoding is a total function here, so malformed base64 text, on which `binary_value` throws, is not modelled.

## Model

| member | source | states |
|---|---|---|
| EntityProperties.BooleanText | Microsoft.WindowsAzure.Storage/includes/was/table.h:685-688 | a boolean is stored as exactly "true" or "false", and the text is "true" iff the value is true |
| EntityProperties.ParseBoolean | Microsoft.WindowsAzure.Storage/includes/was/table.h:424-435 | decoding succeeds iff the text is exactly "true" or "false", and the decoded value's text is the input; any other text is the parse error |
| EntityProperties.BooleanRoundTrip | Microsoft.WindowsAzure.Storage/includes/was/table.h:424-435 | decoding a text gives `b` iff the text is what `b` is stored as |
| EntityProperties.EntityProperty.constructor | Microsoft.WindowsAzure.Storage/includes/was/table.h:263-266 | a default property is a null string property with empty text |
| EntityProperties.EntityProperty.FromBinary | Microsoft.WindowsAzure.Storage/includes/was/table.h:273-277 | binary tag, not null, text is the base64 of the bytes |
| EntityProperties.EntityProperty.FromBoolean | Microsoft.WindowsAzure.Storage/includes/was/table.h:284-288 | boolean tag, not null, text is the boolean's text |
| EntityProperties.EntityProperty.FromGuid | Microsoft.WindowsAzure.Storage/includes/was/table.h:317-321 | GUID tag, not null, text is the GUID's text |
| EntityProperties.EntityProperty.FromInt32 | Microsoft.WindowsAzure.Storage/includes/was/table.h:328-332 | int32 tag, not null, text is the decimal text |
| EntityProperties.EntityProperty.FromInt64 | Microsoft.WindowsAzure.Storage/includes/was/table.h:339-343 | int64 tag, not null, text is the decimal text |
| EntityProperties.EntityProperty.FromString | Microsoft.WindowsAzure.Storage/includes/was/table.h:350-354 | string tag, not null, text is the string |
| EntityProperties.EntityProperty.SetPropertyType | Microsoft.WindowsAzure.Storage/includes/was/table.h:368-371 | only the tag changes |
| EntityProperties.EntityProperty.SetIsNull | Microsoft.WindowsAzure.Storage/includes/was/table.h:386-389 | only the null flag changes |
| EntityProperties.EntityProperty.BinaryValue | Microsoft.WindowsAzure.Storage/includes/was/table.h:400-408 | fails with a binary type mismatch iff the tag is not binary; otherwise the base64-decoded text |
| EntityProperties.EntityProperty.BooleanValue | Microsoft.WindowsAzure.Storage/includes/was/table.h:417-436 | succeeds iff the tag is boolean and the text is "true" or "false"; a wrong tag is a type mismatch; a boolean tag with any other text is the parse error; a success's text is the value's text |
| EntityProperties.EntityProperty.GuidValue | Microsoft.WindowsAzure.Storage/includes/was/table.h:511-520 | fails iff the tag is not GUID; otherwise the stored text |
| EntityProperties.EntityProperty.Int32Value | Microsoft.WindowsAzure.Storage/includes/was/table.h:529-540 | fails iff the tag is not int32; otherwise the value `istream >>` stores into 32 bits, or the uninitialized value when the text is empty or only white space; text written from `n` reads back as `n` |
| EntityProperties.EntityProperty.Int64Value | Microsoft.WindowsAzure.Storage/includes/was/table.h:549-560 | the same for int64 |
| EntityProperties.EmptyTextAsInt32 | Microsoft.WindowsAzure.Storage/includes/was/table.h:536-539 | a default property retagged as int32 reads back as the uninitialized value, not as 0 |
| EntityProperties.EntityProperty.StringValue | Microsoft.WindowsAzure.Storage/includes/was/table.h:569-577 | fails iff the tag is not string; otherwise the stored text, unchanged |
| EntityProperties.EntityProperty.SetBinary | Microsoft.WindowsAzure.Storage/includes/was/table.h:585-588 | as written: the text becomes the base64 of the bytes; the tag and null flag keep their old values |
| EntityProperties.EntityProperty.SetBinaryTyped | Microsoft.WindowsAzure.Storage/includes/was/table.h:585-588 | corrected: binary tag, not null, base64 text |
| EntityProperties.EntityProperty.SetBoolean | Microsoft.WindowsAzure.Storage/includes/was/table.h:594-599 | boolean tag, not null, text "true"/"false" |
| EntityProperties.EntityProperty.SetGuid | Microsoft.WindowsAzure.Storage/includes/was/table.h:629-634 | GUID tag, not null, GUID text |
| EntityProperties.EntityProperty.SetInt32 | Microsoft.WindowsAzure.Storage/includes/was/table.h:640-645 | int32 tag, not null, decimal text |
| EntityProperties.EntityProperty.SetInt64 | Microsoft.WindowsAzure.Storage/includes/was/table.h:651-656 | int64 tag, not null, decimal text |
| EntityProperties.EntityProperty.SetString | Microsoft.WindowsAzure.Storage/includes/was/table.h:662-667 | string tag, not null, the string itself |
| EntityProperties.SetThenGet | Microsoft.WindowsAzure.Storage/includes/was/table.h:594-667 | on one property, each typed getter returns what its setter stored (bool, int32, int64, string, `str()`, GUID, and bytes through the corrected binary setter when base64 decoding undoes encoding), and reading a boolean from an int32 property is a type mismatch, not a reinterpretation |
| EntityProperties.BinaryOnDefaultProperty | Microsoft.WindowsAzure.Storage/includes/was/table.h:585-588 | bytes set on a default property cannot be read back as bytes with the setter as written (type mismatch); with the corrected setter they come back unchanged |
| Decimal.DecimalText | Microsoft.WindowsAzure.Storage/includes/was/table.h:706-718 | `ostream <<` text: starts with '-' iff the value is negative, followed by digits only |
| Decimal.ExtractInteger | Microsoft.WindowsAzure.Storage/includes/was/table.h:536-538 | `istream >>` into a range: nothing is stored iff the text is empty or only white space; otherwise the stored value lies in the range |
| Decimal.DecimalRoundTrip | Microsoft.WindowsAzure.Storage/includes/was/table.h:706-718 | for every in-range value, reading the written text back gives the same value |
| Decimal.DecimalPrefixRoundTrip | Microsoft.WindowsAzure.Storage/includes/was/table.h:1375-1381 | the same when the text is followed by a non-digit such as the `L` suffix |
| TableOperations.TableEntity.Empty | Microsoft.WindowsAzure.Storage/includes/was/table.h:738-740 | no keys, no etag, no properties |
| TableOperations.TableEntity.WithKeys | Microsoft.WindowsAzure.Storage/includes/was/table.h:747-750 | the given keys, no etag, no properties |
| TableOperations.TableOperation.DeleteEntity | Microsoft.WindowsAzure.Storage/includes/was/table.h:910-913 | delete kind, the given entity |
| TableOperations.TableOperation.InsertEntity | Microsoft.WindowsAzure.Storage/includes/was/table.h:920-923 | insert kind, the given entity |
| TableOperations.TableOperation.InsertOrMergeEntity | Microsoft.WindowsAzure.Storage/includes/was/table.h:931-934 | insert-or-merge kind, the given entity |
| TableOperations.TableOperation.InsertOrReplaceEntity | Microsoft.WindowsAzure.Storage/includes/was/table.h:942-945 | insert-or-replace kind, the given entity |
| TableOperations.TableOperation.MergeEntity | Microsoft.WindowsAzure.Storage/includes/was/table.h:952-955 | merge kind, the given entity |
| TableOperations.TableOperation.ReplaceEntity | Microsoft.WindowsAzure.Storage/includes/was/table.h:962-965 | replace kind, the given entity |
| TableOperations.TableOperation.RetrieveEntity | Microsoft.WindowsAzure.Storage/includes/was/table.h:973-980 | retrieve kind; the entity carries the two keys and nothing else |
| TableOperations.TableBatchOperation.constructor | Microsoft.WindowsAzure.Storage/includes/was/table.h:1005-1007 | a new batch is empty |
| TableOperations.TableBatchOperation.DeleteEntity | Microsoft.WindowsAzure.Storage/includes/was/table.h:1014-1017 | appends one delete operation; earlier operations unchanged and in order |
| TableOperations.TableBatchOperation.InsertEntity | Microsoft.WindowsAzure.Storage/includes/was/table.h:1024-1027 | appends one insert operation |
| TableOperations.TableBatchOperation.InsertOrMergeEntity | Microsoft.WindowsAzure.Storage/includes/was/table.h:1035-1038 | appends one insert-or-merge operation |
| TableOperations.TableBatchOperation.InsertOrReplaceEntity | Microsoft.WindowsAzure.Storage/includes/was/table.h:1046-1049 | appends one insert-or-replace operation |
| TableOperations.TableBatchOperation.MergeEntity | Microsoft.WindowsAzure.Storage/includes/was/table.h:1056-1059 | appends one merge operation |
| TableOperations.TableBatchOperation.ReplaceEntity | Microsoft.WindowsAzure.Storage/includes/was/table.h:1066-1069 | appends one replace operation |
| TableOperations.TableBatchOperation.RetrieveEntity | Microsoft.WindowsAzure.Storage/includes/was/table.h:1077-1080 | appends one retrieve operation whose entity has only the given keys |
| TableOperations.CountOfAppend | Microsoft.WindowsAzure.Storage/includes/was/table.h:1014-1080 | an append adds one to the count of its own kind and leaves every other kind's count unchanged |
| TableOperations.BuildBatch | Microsoft.WindowsAzure.Storage/includes/was/table.h:1014-1080 | a batch built by successive add calls lists the operations in call order, each with its call's kind, with the retrieved entity holding the two keys, no etag and no properties; the batch holds one delete and no merge |
| TableOperations.BatchKeepsCopy | Microsoft.WindowsAzure.Storage/includes/was/table.h:983-986 | an operation keeps its own copy of the entity and its properties: changing the property object after the entity was added to a batch leaves the batched operation as it was |
| TableQueries.TableQuery.constructor | Microsoft.WindowsAzure.Storage/includes/was/table.h:1178-1181 | take count -1, no filter, no selected columns |
| TableQueries.TableQuery.SetTakeCount | Microsoft.WindowsAzure.Storage/includes/was/table.h:1196-1199 | only the take count changes |
| TableQueries.TableQuery.SetFilterString | Microsoft.WindowsAzure.Storage/includes/was/table.h:1214-1217 | only the filter changes |
| TableQueries.TableQuery.SetSelectColumns | Microsoft.WindowsAzure.Storage/includes/was/table.h:1234-1237 | only the selected columns change |
| TableQueries.TableQuery.CombineFilterConditions | Microsoft.WindowsAzure.Storage/includes/was/table.h:1390-1406 | the result is "(" + left + ") " + operator + " (" + right + ")": its length is the three lengths plus 6, and it opens and closes with a parenthesis |
| TableQueries.CombinedFilterIsBalanced | Microsoft.WindowsAzure.Storage/includes/was/table.h:1390-1406 | combining balanced conditions with a balanced operator gives a balanced filter, in which the left operand stays one closed group |
| TableQueries.TableQuery.GenerateBooleanFilterCondition | Microsoft.WindowsAzure.Storage/includes/was/table.h:1277-1281 | the formatter gets the boolean's stored text |
| TableQueries.TableQuery.GenerateGuidFilterCondition | Microsoft.WindowsAzure.Storage/includes/was/table.h:1339-1351 | the formatter gets the GUID literal |
| TableQueries.GuidLiteral | Microsoft.WindowsAzure.Storage/includes/was/table.h:1339-1351 | `guid'` + text + `'`: six characters longer than the GUID's text, and the text reads back from between the quotes |
| TableQueries.TableQuery.GenerateInt32FilterCondition | Microsoft.WindowsAzure.Storage/includes/was/table.h:1360-1366 | the formatter gets the decimal text, and that literal reads back as the value |
| TableQueries.TableQuery.GenerateInt64FilterCondition | Microsoft.WindowsAzure.Storage/includes/was/table.h:1375-1381 | the formatter gets the 64-bit literal |
| TableQueries.Int64Literal | Microsoft.WindowsAzure.Storage/includes/was/table.h:1375-1381 | ends in `L`, and reading it with `istream >>` gives back the value |
| BlockBlobs.IndexOf | Microsoft.WindowsAzure.Storage/tests/cloud_block_blob_test.cpp:101-103 | the first position holding the id, or -1 iff there is none |
| BlockBlobs.Find | Microsoft.WindowsAzure.Storage/tests/cloud_block_blob_test.cpp:101-103 | none iff the id is absent; with distinct ids, the content of the block with that id |
| BlockBlobs.Stage | Microsoft.WindowsAzure.Storage/tests/cloud_block_blob_test.cpp:88-98 | a new id joins the end of the staged list; an id already staged has its content replaced in place |
| BlockBlobs.StageProperties | Microsoft.WindowsAzure.Storage/tests/cloud_block_blob_test.cpp:88-98 | staging keeps the staged ids distinct, lists ids in upload order, and makes the id resolve to the new content while every other id resolves as before |
| BlockBlobs.Resolve | Microsoft.WindowsAzure.Storage/tests/cloud_block_blob_test.cpp:101-103 | an entry refers to nothing iff its id is missing from the list its mode looks in; a latest entry prefers the staged block |
| BlockBlobs.UnreferencedMembers | Microsoft.WindowsAzure.Storage/tests/cloud_block_blob_test.cpp:101-103 | after a commit, a block stays staged iff it was staged and the request does not name it |
| BlockBlobs.AllReferencedLeavesNothing | Microsoft.WindowsAzure.Storage/tests/cloud_block_blob_test.cpp:101-103 | a request naming every staged block leaves nothing staged |
| BlockBlobs.UnreferencedExcludes | Microsoft.WindowsAzure.Storage/tests/cloud_block_blob_test.cpp:101-103 | a staged block the request names does not stay staged |
| BlockBlobs.UnreferencedDistinct | Microsoft.WindowsAzure.Storage/tests/cloud_block_blob_test.cpp:101-103 | what stays staged still has distinct ids |
| BlockBlobs.ResolveItems | Microsoft.WindowsAzure.Storage/tests/cloud_block_blob_test.cpp:101-103 | the entry-by-entry resolution of a commit request equals its reference definition: the resolved blocks if every entry resolves, otherwise none |
| BlockBlobs.RemoveReferenced | Microsoft.WindowsAzure.Storage/tests/cloud_block_blob_test.cpp:101-103 | the loop that drops the named staged blocks equals its reference definition |
| BlockBlobs.Listing | Microsoft.WindowsAzure.Storage/tests/cloud_block_blob_test.cpp:29-66 | one entry per block, in order, with its id, size and the given mode |
| BlockBlobs.Md5Header | Microsoft.WindowsAzure.Storage/tests/cloud_block_blob_test.cpp:86-131 | the caller's digest verbatim if given; otherwise the computed digest when transactional digests are on; otherwise none |
| BlockBlobs.CloudBlockBlob.constructor | Microsoft.WindowsAzure.Storage/tests/cloud_block_blob_test.cpp:351-353 | a new blob has no blocks and no etag |
| BlockBlobs.CloudBlockBlob.UploadBlock | Microsoft.WindowsAzure.Storage/tests/cloud_block_blob_test.cpp:86-143 | the header sent follows Md5Header; the upload fails iff a header is sent that differs from the body's digest, and then nothing changes; otherwise the block is staged; the committed list and etag never change |
| BlockBlobs.CloudBlockBlob.UploadBlockList | Microsoft.WindowsAzure.Storage/tests/cloud_block_blob_test.cpp:101-103 | succeeds iff every entry resolves. On success the resolved blocks become the committed list, the named staged blocks leave the staged list, and the etag advances. On failure nothing changes |
| BlockBlobs.CloudBlockBlob.DownloadContent | Microsoft.WindowsAzure.Storage/tests/cloud_block_blob_test.cpp:451-452 | the loop's result is the committed blocks' data concatenated in list order |
| BlockBlobs.CloudBlockBlob.DownloadBlockList | Microsoft.WindowsAzure.Storage/tests/cloud_block_blob_test.cpp:29-66 | committed: committed ids in order, marked committed; uncommitted: staged ids in order, marked uncommitted; all: the committed entries followed by the uncommitted ones, with the sizes of the blocks |
| BlockBlobs.AllListingSplits | Microsoft.WindowsAzure.Storage/tests/cloud_block_blob_test.cpp:51-66 | the "all" listing is the committed listing followed by the uncommitted listing |
| BlockBlobs.CommittedContent | Microsoft.WindowsAzure.Storage/tests/cloud_block_blob_test.cpp:441-475 | after a commit the content is the entries' contents concatenated in request order, repeats included |
| BlockBlobs.LatestItems | Microsoft.WindowsAzure.Storage/tests/cloud_block_blob_test.cpp:90-92 | one latest-mode entry per id, in order |
| BlockBlobs.CommitAllStaged | Microsoft.WindowsAzure.Storage/tests/cloud_block_blob_test.cpp:101-116 | committing old committed ids followed by the staged ids makes exactly that list committed and leaves nothing staged |
| BlockBlobs.ResolveAllEach | Microsoft.WindowsAzure.Storage/tests/cloud_block_blob_test.cpp:101-103 | a request whose every entry resolves to a given block's content stands for exactly those blocks |
| BlockBlobScenarios.DigitsText | Microsoft.WindowsAzure.Storage/tests/cloud_block_blob_test.cpp:443-444 | one character per digit, the digit's own character |
| BlockBlobScenarios.ContentOfDigitBlocks | Microsoft.WindowsAzure.Storage/tests/cloud_block_blob_test.cpp:451-452 | the content of the digit blocks of a list is the list's digit text |
| BlockBlobScenarios.CommitDigits | Microsoft.WindowsAzure.Storage/tests/cloud_block_blob_test.cpp:450-475 | committing the latest blocks of a digit list, all of them present, commits exactly those digit blocks in list order |
| BlockBlobScenarios.CommitAndDownload | Microsoft.WindowsAzure.Storage/tests/cloud_block_blob_test.cpp:450-452 | one commit and download: the committed ids are the list's, and the download is the list's digit text |
| BlockBlobScenarios.Recommit | Microsoft.WindowsAzure.Storage/tests/cloud_block_blob_test.cpp:454-475 | recommitting a list whose digits are all committed or freshly staged gives that list's digit text |
| BlockBlobScenarios.StageDigit | Microsoft.WindowsAzure.Storage/tests/cloud_block_blob_test.cpp:466-470 | staging a digit block lists its id and keeps the other staged ids |
| BlockBlobScenarios.StageTenDigits | Microsoft.WindowsAzure.Storage/tests/cloud_block_blob_test.cpp:441-449 | after the ten uploads every digit's id is staged and nothing is committed |
| BlockBlobScenarios.RemoveFromList | Microsoft.WindowsAzure.Storage/tests/cloud_block_blob_test.cpp:450-462 | downloads "0123456789", then "123456789" after erasing the first entry, then "12356789" after erasing the fourth |
| BlockBlobScenarios.MoveToFront | Microsoft.WindowsAzure.Storage/tests/cloud_block_blob_test.cpp:464-475 | after staging 4 again and putting it first: "412356789"; after appending it once more: "4123567894" |
| BlockBlobScenarios.BlockReordering | Microsoft.WindowsAzure.Storage/tests/cloud_block_blob_test.cpp:436-476 | the five downloads of the test are the five digit texts it checks |
| BlockBlobScenarios.BlocksOf | Microsoft.WindowsAzure.Storage/tests/cloud_block_blob_test.cpp:88-98 | block `k` of the range has id `id(k)` and body `bodies(k)` |
| BlockBlobScenarios.IdRange | Microsoft.WindowsAzure.Storage/tests/cloud_block_blob_test.cpp:88-98 | entry `j` of the range is `id(lo + j)` |
| BlockBlobScenarios.StageNext | Microsoft.WindowsAzure.Storage/tests/cloud_block_blob_test.cpp:88-98 | staging a fresh id after a run of staged blocks appends it |
| BlockBlobScenarios.StageRound | Microsoft.WindowsAzure.Storage/tests/cloud_block_blob_test.cpp:86-131 | after a round's three uploads the staged list is exactly its three blocks in order, and each header sent is the expected one: none in round one, the supplied digest in round two, the computed digest in round three |
| BlockBlobScenarios.RoundCommit | Microsoft.WindowsAzure.Storage/tests/cloud_block_blob_test.cpp:101-103 | committing the earlier ids followed by this round's commits every block so far, in order, and leaves nothing staged |
| BlockBlobScenarios.CommitRound | Microsoft.WindowsAzure.Storage/tests/cloud_block_blob_test.cpp:101-103 | after a round's commit, all blocks so far are committed in order and nothing is staged |
| BlockBlobScenarios.UploadRound | Microsoft.WindowsAzure.Storage/tests/cloud_block_blob_test.cpp:86-103 | a full round: the expected headers; listings with the earlier ids committed and this round's staged; then everything committed |
| BlockBlobScenarios.BlockUpload | Microsoft.WindowsAzure.Storage/tests/cloud_block_blob_test.cpp:72-146 | headers: none for blocks 0-2, the body's digest for 3-8. Before each commit, both listings are as the test checks them. The upload with a wrong supplied digest fails, sends that digest verbatim, and leaves all nine blocks committed and nothing staged |
| BlockBlobScenarios.EmptyCommit | Microsoft.WindowsAzure.Storage/tests/cloud_block_blob_test.cpp:351-354 | committing an empty list gives a new blob an etag and leaves it empty |
| BlockBlobScenarios.StageLatest | Microsoft.WindowsAzure.Storage/tests/cloud_block_blob_test.cpp:174-175 | staging one more chunk keeps every id resolving to the last chunk staged under it |
| BlockBlobScenarios.StageChunks | Microsoft.WindowsAzure.Storage/tests/cloud_block_blob_test.cpp:174-175 | after staging the chunks, each id resolves among the staged blocks to the last chunk staged under it; nothing committed changes |
| BlockBlobScenarios.UploadChunks | Microsoft.WindowsAzure.Storage/tests/cloud_block_blob_test.cpp:174-175 | the block path of an upload: staging the chunks under distinct ids and committing them makes the content exactly the chunks concatenated, with none of them left staged |
| BlockBlobScenarios.CommittedChunks | Microsoft.WindowsAzure.Storage/tests/cloud_block_blob_test.cpp:174-175 | blocks carrying the chunks, in order, have the chunks' concatenation as their content |
| UploadPlans.Chunks | Microsoft.WindowsAzure.Storage/tests/cloud_block_blob_test.cpp:174-175 | the blocks concatenate back to the data; each is non-empty and at most the block size; all but the last are full |
| UploadPlans.ChunkCount | Microsoft.WindowsAzure.Storage/tests/cloud_block_blob_test.cpp:174-175 | the number of blocks is the data length over the block size, rounded up |
| UploadPlans.PrepareUpload | Microsoft.WindowsAzure.Storage/tests/cloud_block_blob_test.cpp:148-316 | `storage_exception` iff the source is seekable and shorter than the requested length. A non-seekable short source gives `invalid_argument`. Otherwise `invalid_argument` iff the upload is a single put with a transactional digest and no stored content digest. Every other upload succeeds and sends exactly the requested bytes, in one put iff the length is known, within the threshold and not parallel, else as the blocks `Chunks` cuts from those bytes: full blocks of the block size and a shorter last one |
| UploadPlans.InvalidSizeRejected | Microsoft.WindowsAzure.Storage/tests/cloud_block_blob_test.cpp:322-331 | one byte more than the source holds fails: `storage_exception` if seekable, `invalid_argument` if not, at offset 0 or 1024 |
| UploadPlans.InvalidOptionsRejected | Microsoft.WindowsAzure.Storage/tests/cloud_block_blob_test.cpp:403-410 | uploading an empty text with transactional digests on and stored content digests off fails with `invalid_argument` |

## Left out

- Everything asynchronous or over the network: the `pplx::task` methods, `cloud_table_client`, `cloud_table`, the service and permission calls, shared access signatures. These are I/O plumbing.
- `double` and datetime: the `double_value`/`datetime_value` getters, their setters and constructors, and their `generate_filter_condition` overloads. These are floating-point and calendar formatting done by code that is not part of this model.
- The string, character-pointer and binary overloads of `generate_filter_condition`, and `generate_filter_condition_impl` itself. Their bodies are not part of this model, so the formatter is a parameter.
- base64, `uuid_to_string`/`string_to_uuid` and MD5 are parameters. GUIDs are modelled by their text, so a GUID text that does not parse is not modelled.
- EntityProperties.EntityProperty.Str: has no contract of its own. It returns the stored text, and SetThenGet states what it gives back.
- `table_entity` accessors and setters. Entities are values here, holding copies of their properties.
- `table_query` getters, `table_result`, query segments and continuation tokens.
- The copy constructors and URI accessors in `block_blob_constructor`. The model keeps one blob and its etag; names, URIs and copies are not modelled.
- Parallel uploads and `check_parallelism`, request counting, and the maximum-execution-time test. These concern concurrency, HTTP traffic and wall-clock time.
- Snapshots, metadata round-trips, content-type properties, `download_text` digest validation, and uncommitted-blob container listing. These are server behaviour outside the block lists.
- UploadPlans.PrepareUpload: the library's upload code is not part of this model, so the planning rule is the one the upload tests' expectations fix (cloud_block_blob_test.cpp lines 148-331), not a transcription of that code. The single-put path is planned but not applied to the block store; Put Blob itself is not modelled.
- BlockBlobs.CloudBlockBlob.UploadBlockList: staged blocks a commit does not name stay staged. The service discards them at commit time. A staged block that a commit names only through a committed-mode entry also leaves the staged list without being committed. No modelled test observes either difference, because every commit in them names every staged block through a latest-mode entry.
- The etag is modelled as a counter that changes on every commit. Its text form is not modelled.
- Block ids: the tests derive them from the index with base64. Here they are any injective naming passed as a parameter, and ids of different lengths are allowed.

## Findings

| source | as written | input that shows it | evidently intended | confidence | as-written member | corrected member |
|---|---|---|---|---|---|---|
| Microsoft.WindowsAzure.Storage/includes/was/table.h:585-588 | `set_value(std::vector<uint8_t>)` stores the base64 text but, unlike every other typed setter, sets neither the binary tag nor the null flag | a default-constructed property given any bytes: its tag stays string, so `binary_value()` throws a type mismatch (BinaryOnDefaultProperty) | set the tag to binary and the null flag to false, as the binary constructor at 273-277 does | not executed | EntityProperties.EntityProperty.SetBinary | EntityProperties.EntityProperty.SetBinaryTyped |
