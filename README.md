# document-manager, modelled in Dafny

This project models the backend of document-manager, a Flask service over S3 and the
OpenAI API. Clients upload documents, list them, ask for a document's category and delete
documents. The model covers the backend's own decision logic. The S3 client, the OpenAI
SDK, the tokenizer, the HTTP session and the text extractors are abstract functions or an
in-memory map.

One Dafny module per source file:

- `document_utils.dfy` (`DocumentUtils`): the upload checks and the metadata record.
  - `allowed_file` tests whether the lower-cased extension occurs in the name.
  - The size ceiling is 2 MiB, inclusive.
  - Measuring a file seeks to the end, reads the position and rewinds; this is modelled on a `FileStream` class.
  - The metadata has five fields.
- `processor_factory.dfy` (`ProcessorFactory`): the exact, case-sensitive map from extension to extractor kind.
- `openai_chat_service.dfy` (`OpenAIChat`): the streaming client, a subset of server-sent events (section 9.2 of the WHATWG HTML Living Standard).
  - It keeps `data: ` lines, stops at `[DONE]`, skips payloads that are not JSON and yields every non-empty `delta.content` in order.
  - The loop is a method proved against the `Fragments` specification function.
- `document_classifier.dfy` (`Classification`): the `DocumentClassifier` class and its collaborators, held as constant fields.
  - It computes the token budget, truncates to it and builds the two-message prompt.
  - The extension is taken from the name, and the primary/fallback choice of `detect_category` is modelled.
  - The fallback's `category += content` loop is modelled.
- `s3_file_storage.dfy` (`S3Storage`): `S3FileStorage` over a map from object key to body, metadata and modification time.
  - The constant `reachable` decides whether client calls succeed.
  - Covered: key and id construction, the listing records, the metadata read, the category rewrite, delete, and both lookups (see Findings).
- `document_service.dfy` (`Services`): `DocumentService` sequences the store and the classifier and shapes the result dictionaries.
- `routes.dfy` (`Routes`): the handlers as functions from the request and the service's outcome to a status and a JSON body.
- `strings.dfy`, `wrappers.dfy`, `json.dfy`: the Python string operations used, plus `Option`/`Result` and JSON values.
  - The string operations are `lower`, `split(sep)[-1]`, substring `in`, `strip`, `startswith`/`endswith`, `str(n)` and `+=` concatenation.

Where the code's behaviour is surprising, the model follows the code:

- `allowed_file` is modelled as written. It never consults the allow-list, so `test.exe` and `file.` pass and `REPORT.PDF` does not.
- The metadata record stores the name unchanged; the code does no ASCII folding.
- An empty category after `strip()` is not turned into a failure. The `raise` sits inside the same `try` and is caught by the generic handler, so `detect_category` returns `""`.
- The upload and list handlers call `upload_file` and `list_files`, which the service does not define. The attribute lookup raises inside the handlers' `try`, so both always answer 500 once the upload checks pass (`Routes.UploadNeverSucceeds`, `Routes.ListRoute`).
- A missing document is answered 500, not 404 (see Findings). The model carries the service and the handler both as written and over the corrected lookup.

## Model

| member | source | states |
|---|---|---|
| Strings.Lower | backend/app/utils/document_utils.py:13 | `str.lower()` on ASCII letters: same length, each character lower-cased. |
| Strings.LowerOfLower | backend/app/utils/document_utils.py:13 | A string with no upper-case letter is its own lower-case form. |
| Strings.IsSubstring | backend/app/utils/document_utils.py:13 | `needle in haystack`: some slice of the haystack equals the needle; a needle longer than the haystack never occurs. |
| Strings.SuffixIsSubstring | backend/app/utils/document_utils.py:13 | Every suffix of a string occurs in it (substring `in`). |
| Strings.FirstCharAbsent | backend/app/utils/document_utils.py:13 | A needle whose first character is absent from the haystack does not occur in it. |
| Strings.LastSegment | backend/app/detection/document_classifier.py:79 | `split(sep)[-1]`: a suffix of the string with no separator; a separator precedes it when the string has one; the whole string otherwise. |
| Strings.LastSegmentSplits | backend/app/utils/document_utils.py:13 | `rsplit(sep, 1)`: the front, the separator and the last segment rebuild the string. |
| Strings.LastSegmentAfter | backend/app/utils/document_utils.py:13 | The last segment of `prefix + sep + tail` is `tail` when `tail` has no separator. |
| Strings.LastSegmentOfSuffix | backend/app/detection/document_classifier.py:79 | Text prepended to a string that already holds the separator leaves its last segment unchanged. |
| Strings.StartsWith | backend/app/detection/openai_chat_service.py:22 | `s.startswith(prefix)` holds iff `s` is `prefix` followed by the rest of `s`. |
| Strings.IsSpace | backend/app/detection/openai_chat_service.py:23 | The white space `strip()` removes: among ASCII characters exactly the blank and the control characters 9–13 and 28–31. |
| Strings.Strip | backend/app/detection/openai_chat_service.py:23 | `str.strip()`: the slice between the leading and trailing white space; neither end is white space; empty iff the string is all white space. |
| Strings.NatToDecimal | backend/app/utils/document_utils.py:21 | `str(n)`: non-empty decimal digits, no leading zero. |
| Strings.DecimalRoundTrip | backend/app/utils/document_utils.py:21 | Reading the decimal string back gives the number: `int(str(n)) == n`. |
| Strings.ConcatAppend | backend/app/detection/document_classifier.py:144-147 | Concatenating two runs of pieces is concatenating each run's text. |
| Strings.Concat | backend/app/detection/document_classifier.py:144-147 | The text of `acc += piece` over the pieces: `""` for none, the piece itself for one, otherwise it starts with the first piece and ends with the last; with ConcatAppend this fixes the text for every list of pieces. |
| Strings.ConcatEmpty | backend/app/detection/document_classifier.py:144-147 | Non-empty pieces concatenate to `""` iff there are none. |
| DocumentUtils.AllowedFile | backend/app/utils/document_utils.py:11-13 | `allowed_file` as written: a name without `.` is refused; otherwise the lower-cased text after the last `.` must occur in the name. The allow-list is not read. |
| DocumentUtils.LowerCaseExtensionAllowed | backend/app/utils/document_utils.py:11-13 | Every dotted name whose extension has no upper-case letter is accepted, whatever the extension. |
| DocumentUtils.DottedLowerAllowed | backend/app/utils/document_utils.py:11-13 | Any text, a `.`, and an extension with no upper-case letter make an accepted name. |
| DocumentUtils.ExeAllowed | backend/app/utils/document_utils.py:4-13 | `test.exe` is accepted although `exe` is not on the allow-list. |
| DocumentUtils.TrailingDotAllowed | backend/app/utils/document_utils.py:11-13 | `file.` is accepted: the empty extension occurs in every name. |
| DocumentUtils.ExtensionLetterAbsentRefused | backend/app/utils/document_utils.py:11-13 | A dotted name is refused when the first letter of its lower-cased extension occurs nowhere in it. |
| DocumentUtils.UpperCaseExtensionRefused | backend/app/utils/document_utils.py:11-13 | `REPORT.PDF` is refused, because `pdf` does not occur in it. |
| DocumentUtils.SizeExceeded | backend/app/utils/document_utils.py:7-8 | The ceiling is 2 MiB, strictly: too heavy iff the size exceeds 2097152 bytes. |
| DocumentUtils.FileStream.constructor | backend/app/utils/document_utils.py:28-34 | A new stream holds its bytes at position 0. |
| DocumentUtils.FileStream.Seek | backend/app/utils/document_utils.py:30-32 | `seek(offset, 0)` and `seek(offset, 2)` set the position from the start or from the end. |
| DocumentUtils.FileStream.Tell | backend/app/utils/document_utils.py:31 | `tell()` returns the position. |
| DocumentUtils.RetrieveFileSize | backend/app/utils/document_utils.py:28-34 | Returns the stream's total length and leaves the position at 0. |
| DocumentUtils.IsFileSizeExceeded | backend/app/utils/document_utils.py:37-39 | True iff the length exceeds the ceiling; rewinds the stream. |
| DocumentUtils.Metadata | backend/app/utils/document_utils.py:16-25 | Exactly the five keys; name, key, upload time and category verbatim; `filesize` is `str(size)`: decimal digits, no leading zero, reading back as the size. |
| DocumentUtils.DefaultCategory | backend/app/utils/document_utils.py:16 | Without a category the record says `none`. |
| DocumentUtils.ExtractMetadata | backend/app/utils/document_utils.py:16-25 | The record for the stream's length; the stream is left rewound. |
| ProcessorFactory.GetProcessor | backend/app/factories/processor_factory.py:10-21 | Success iff the extension is one of `txt`, `pdf`, `docx`, `xlsx`, with the processor of that extension; otherwise the error names the extension. |
| ProcessorFactory.UnsupportedMessage | backend/app/factories/processor_factory.py:21 | The error message ends with the offending extension. |
| ProcessorFactory.DispatchRoundTrip | backend/app/factories/processor_factory.py:12-19 | Each processor is reached from its own extension and from no other string. |
| ProcessorFactory.NarrowerThanAllowList | backend/app/factories/processor_factory.py:12-21 | `PDF`, `TXT`, `doc` and `xls` are refused. |
| OpenAIChat.ChoiceContents | backend/app/detection/openai_chat_service.py:31-36 | Only non-empty contents, at most one per choice, and every present non-empty content is yielded. |
| OpenAIChat.CompletionsUrl | backend/app/detection/openai_chat_service.py:15 | The configured base URL followed by `/chat/completions`, pinned by its start, end and length. |
| OpenAIChat.IsHttpError | backend/app/detection/openai_chat_service.py:19 | `raise_for_status` raises exactly for the 4xx and 5xx status classes. |
| OpenAIChat.IsDataLine | backend/app/detection/openai_chat_service.py:21-22 | A line is read iff it starts with `data: `; the emptiness test adds nothing. |
| OpenAIChat.Payload | backend/app/detection/openai_chat_service.py:23 | `line[len('data: '):].strip()`: Strip of the text after `data: `, so no longer than the rest of the line and with no surrounding white space. |
| OpenAIChat.IsDone | backend/app/detection/openai_chat_service.py:23-25 | The sentinel line is a data line whose stripped payload is `[DONE]`. |
| OpenAIChat.ContentsComeFromChoices | backend/app/detection/openai_chat_service.py:31-36 | Every yielded fragment is some choice's `delta.content`. |
| OpenAIChat.LineFragments | backend/app/detection/openai_chat_service.py:21-36 | A line yields only non-empty fragments. |
| OpenAIChat.Fragments | backend/app/detection/openai_chat_service.py:20-36 | A stream yields only non-empty fragments. |
| OpenAIChat.StreamChatCompletionContent | backend/app/detection/openai_chat_service.py:14-36 | Raises on a 4xx/5xx status; otherwise yields exactly the stream's fragments. |
| OpenAIChat.ReadEvents | backend/app/detection/openai_chat_service.py:20-36 | The line loop, with its `break` at `[DONE]`, yields exactly `Fragments` of the lines. |
| OpenAIChat.ReadLine | backend/app/detection/openai_chat_service.py:21-36 | One iteration: reports `[DONE]` exactly for the sentinel line, and otherwise yields that line's fragments. |
| OpenAIChat.ChoiceFragments | backend/app/detection/openai_chat_service.py:32-36 | The inner loop over choices yields exactly their non-empty contents in order. |
| OpenAIChat.DoneEndsStream | backend/app/detection/openai_chat_service.py:24-25 | Nothing after the first `[DONE]` line is yielded. |
| OpenAIChat.SilentLineSkipped | backend/app/detection/openai_chat_service.py:21-29 | A line that yields nothing can be removed without changing the output. |
| OpenAIChat.NonDataLineIgnored | backend/app/detection/openai_chat_service.py:21-22 | Empty lines and lines without `data: ` do not change the output. |
| OpenAIChat.UndecodablePayloadSkipped | backend/app/detection/openai_chat_service.py:26-29 | A payload that is not JSON does not change the output and raises nothing. |
| OpenAIChat.FragmentsInLineOrder | backend/app/detection/openai_chat_service.py:20-36 | Without `[DONE]` in the first part, the output is the first part's fragments followed by the rest's. |
| OpenAIChat.ChoiceOrder | backend/app/detection/openai_chat_service.py:32-36 | Within a line, fragments keep choice order. |
| OpenAIChat.PastLine | backend/app/detection/openai_chat_service.py:20-36 | A non-sentinel line's fragments join the output before those of the later lines. |
| OpenAIChat.FirstLine | backend/app/detection/openai_chat_service.py:20-36 | A stream not opening with the sentinel yields its first line's fragments, then the rest's. |
| OpenAIChat.StopAtDone | backend/app/detection/openai_chat_service.py:24-25 | At the sentinel, the output so far is the whole output. |
| Classification.MaxTokensFor | backend/app/detection/document_classifier.py:17-19 | Every model, `gpt-4o-mini` or unknown, gets 4096 tokens. |
| Classification.ResolveApiKey | backend/app/detection/document_classifier.py:24-28 | A non-empty argument wins, then a non-empty environment value; nothing iff both are missing or empty. |
| Classification.TakeTokens | backend/app/detection/document_classifier.py:45 | `tokens[:n]` is the prefix of length `min(len, n)`, and the whole sequence when it fits. |
| Classification.UserMessage | backend/app/detection/document_classifier.py:50-55 | The user message starts with the fixed prefix, ends with `\n\nCategory:`, and holds the document text between them. |
| Classification.UserMessageInjective | backend/app/detection/document_classifier.py:70 | Distinct document texts give distinct user messages. |
| Classification.FileExtension | backend/app/detection/document_classifier.py:79 | The lower-cased text after the last `.`, or the whole lower-cased name; it holds no `.`. |
| Classification.DocumentIdExtension | backend/app/detection/document_classifier.py:79 | An id `<uuid>_<name>` dispatches on the name's own extension when the name has a `.`. |
| Classification.PrimaryCategory | backend/app/detection/document_classifier.py:97-99 | The category is bound iff a first choice with content exists, and is then `strip()` of that content: no surrounding white space, `""` iff the content is all white space. |
| Classification.PlaygroundPayload | backend/app/detection/document_classifier.py:120-141 | The streamed request carries the prompt, `gpt-4o-mini`, 10 completion tokens and streaming on. |
| Classification.DocumentClassifier.constructor | backend/app/detection/document_classifier.py:23-40 | Stores the collaborators; the model limit is the model's. |
| Classification.DocumentClassifier.Create | backend/app/detection/document_classifier.py:23-40 | Raises for a missing API key, then for an unknown tokenizer; otherwise a fresh classifier with the resolved key and 4096 tokens. |
| Classification.DocumentClassifier.TruncateTextToTokens | backend/app/detection/document_classifier.py:42-46 | Decodes exactly `tokens[:max_tokens]` of the text's encoding; a text that fits and decodes back to itself is kept whole. |
| Classification.DocumentClassifier.AvailableDocumentTokens | backend/app/detection/document_classifier.py:57-64 | The budget and the tokens of the system message, the prefix and the 70 reserved tokens add up to the model's limit. |
| Classification.DocumentClassifier.BuildPromptMessages | backend/app/detection/document_classifier.py:48-75 | Raises iff the fixed parts leave no token; otherwise two messages, the fixed system message and the user message around the truncated text. |
| Classification.DocumentClassifier.PromptMessages | backend/app/detection/document_classifier.py:79-84 | An unsupported extension raises the factory's error; an extractor error escapes; otherwise the prompt is `_build_prompt_messages` of the extracted text. |
| Classification.DocumentClassifier.FallbackCategory | backend/app/detection/document_classifier.py:111-149 | `None` on an HTTP error; otherwise a string that is empty iff nothing was streamed. |
| Classification.DocumentClassifier.FallbackInLineOrder | backend/app/detection/document_classifier.py:144-147 | The fallback text is the first lines' fragments followed by the rest's. |
| Classification.DocumentClassifier.DetectViaChatService | backend/app/detection/document_classifier.py:143-149 | The `category += content` loop returns the fallback's text. |
| Classification.DocumentClassifier.Detect | backend/app/detection/document_classifier.py:77-108 | An error before the call escapes; after it the category is chosen as `CategoryFromPrompt` says; a rate limit gives the fallback's result for the user message; `None` only when that fallback failed. |
| Classification.DocumentClassifier.CategoryFromPrompt | backend/app/detection/document_classifier.py:86-108 | A first choice with content gives its stripped text; no such choice, or an error other than a rate limit, leaves `category` unbound and raises; a rate limit gives the fallback for the user message. |
| Classification.DocumentClassifier.DetectCategory | backend/app/detection/document_classifier.py:77-85 | The extension, processor, text and prompt steps, then the call: the result is `Detect`. |
| Classification.DocumentClassifier.AskForCategory | backend/app/detection/document_classifier.py:86-108 | The `try` with `category` assigned or not across its branches computes `CategoryFromPrompt`. |
| S3Storage.DocumentId | backend/app/storage/s3_file_storage.py:42 | The id starts with `<uuid>_` and ends with the sanitized name. |
| S3Storage.DocumentKey | backend/app/storage/s3_file_storage.py:43 | The key is `documents/` followed by the id. |
| S3Storage.DocumentKeyInjective | backend/app/storage/s3_file_storage.py:43 | Distinct ids give distinct keys. |
| S3Storage.FilenameIsDocumentId | backend/app/storage/s3_file_storage.py:86 | The listed `filename` of a document's key is its id. |
| S3Storage.DocumentIdHasNoSlash | backend/app/storage/s3_file_storage.py:42 | A uuid and a sanitized name without `/` give an id without `/`. |
| S3Storage.FileUrl | backend/app/storage/s3_file_storage.py:82 | The URL is `https://`, then exactly the bucket as the host's first label, then `.s3.amazonaws.com/<key>`. |
| S3Storage.UrlEndsWithFilename | backend/app/storage/s3_file_storage.py:82-86 | The URL's last segment is the record's `filename`. |
| S3Storage.WithCategory | backend/app/storage/s3_file_storage.py:123-136 | Same body; metadata unchanged except `category`, which holds the new value. |
| S3Storage.WithCategoryIdempotent | backend/app/storage/s3_file_storage.py:127-136 | Writing the same category twice equals writing it once. |
| S3Storage.WithCategoryOverwrites | backend/app/storage/s3_file_storage.py:127-136 | A second write replaces the first entirely. |
| S3Storage.S3FileStorage.constructor | backend/app/storage/s3_file_storage.py:17-19 | A store over a given bucket and object map. |
| S3Storage.S3FileStorage.UploadFile | backend/app/storage/s3_file_storage.py:40-64 | Returns the id and stores the bytes under `documents/<id>` with the metadata of `extract_metadata` (`key` is the id); a client failure raises and stores nothing. |
| S3Storage.S3FileStorage.FileRecord | backend/app/storage/s3_file_storage.py:80-91 | The filename is the key's last `/` segment; the URL, metadata, size and modification time are the object's. |
| S3Storage.S3FileStorage.GetS3FileMetadata | backend/app/storage/s3_file_storage.py:93-102 | The object's metadata, or exactly `{'error': msg}` on failure. |
| S3Storage.MatchingKeys | backend/app/storage/s3_file_storage.py:69 | The keys `list_objects_v2` matches for a prefix: exactly the stored keys that start with the prefix (every one of them, and no other), so every stored key for the empty prefix. |
| S3Storage.S3FileStorage.ListKeys | backend/app/storage/s3_file_storage.py:69 | Every key under the prefix once, and no other key. |
| S3Storage.S3FileStorage.RetrieveS3Objects | backend/app/storage/s3_file_storage.py:66-78 | Raises iff the client fails; one record per matching key, in listing order, without repeats; `[]` when nothing matches. |
| S3Storage.S3FileStorage.FindFileObjectByDocumentId | backend/app/storage/s3_file_storage.py:104-117 | As written: returns the object iff the key exists and the client works; otherwise raises, never returns an empty value. |
| S3Storage.S3FileStorage.LookupDocumentObject | backend/app/services/document_service.py:26-30 | Corrected lookup: raises only on a client failure; no object iff the key is missing. |
| S3Storage.S3FileStorage.UpdateDocumentCategory | backend/app/storage/s3_file_storage.py:119-139 | Only that object changes, through `WithCategory`; nothing is written when the read fails, the write fails or the category is `None`. |
| S3Storage.S3FileStorage.RemoveFileObjectByDocumentId | backend/app/storage/s3_file_storage.py:141-154 | True iff the delete call did not raise; only that key is removed. |
| Services.NotFoundResult | backend/app/services/document_service.py:30 | Exactly `{'error': 'Document not found'}`. |
| Services.CategoryJson | backend/app/services/document_service.py:43 | A category is a JSON string, `None` is `null`. |
| Services.DetectedResult | backend/app/services/document_service.py:43 | Exactly `document_id` and `detected_category`, never `error`. |
| Services.DeleteResult | backend/app/services/document_service.py:45-49 | Exactly `message`, with one of the two texts; never `error`. |
| Services.DocumentService.constructor | backend/app/services/document_service.py:10-12 | Holds the store and the classifier. |
| Services.DocumentService.UploadDocument | backend/app/services/document_service.py:14-18 | The store's upload result and effect, unchanged. |
| Services.DocumentService.ListDocuments | backend/app/services/document_service.py:20-22 | The store's listing under `documents`, unchanged. |
| Services.DocumentService.DetectAndUpdateCategory | backend/app/services/document_service.py:24-43 | Over the corrected lookup: a missing document gives the not-found result and an untouched store; a found one is classified and stored as `ClassifyAndStore` says; a client failure raises. |
| Services.DocumentService.DetectAndUpdateCategoryAsWritten | backend/app/services/document_service.py:24-43 | As written: a missing document raises the lookup's error with the store untouched, so the not-found result is never returned; a found one is classified and stored. |
| Services.DocumentService.ClassifyAndStore | backend/app/services/document_service.py:32-43 | The bytes are classified under the id; an exception escapes with the store untouched; otherwise the result carries the category and the update writes that same category for that id. |
| Services.DocumentService.DeleteDocument | backend/app/services/document_service.py:45-49 | The message says whether the store deleted the object; only that key is removed. |
| Routes.UploadRoute | backend/app/routes.py:21-42 | 400 iff the part is missing, the name is refused or the file is too heavy, with the first failing check's message; 500 otherwise. |
| Routes.UploadNeverSucceeds | backend/app/routes.py:37-42 | No upload answers 200, because the service has no `upload_file`. |
| Routes.NameCheckedBeforeSize | backend/app/routes.py:31-35 | An oversized file with a refused name gets the name message. |
| Routes.SizeLimitInclusive | backend/app/routes.py:34-42 | A 2 MiB file with an accepted name passes both checks. |
| Routes.ListRoute | backend/app/routes.py:46-53 | Always 500, because the service has no `list_files`. |
| Routes.Truthy | backend/app/routes.py:61 | Python's truth test: exactly `None`, `False`, `0`, `''`, `{}` and `[]` are false. |
| Routes.DocumentIdOf | backend/app/routes.py:60 | `.get('document_id')`: exactly the value under the key when it is present, `None` when it is absent. |
| Routes.RequestedId | backend/app/routes.py:60-66 | The id passed to the service: a truthy string under `document_id` of an object body. |
| Routes.DetectRoute | backend/app/routes.py:57-75 | 400 iff the id is falsy; 404 iff the result's `error` is `Document not found`; 200 iff the result has no `error`; the result is the body for 200, 404 and any other `error`; an exception or a non-object body gives 500 `Internal server error`. |
| Routes.DetectDocumentCategoryAsWritten | backend/app/routes.py:56-75 | Over the service as written: never 404; a missing document is answered 500 with the store untouched; a found one 200 with its detected category, or 500 when detection raises, and the new store is the old one with that category written back (unchanged when detection raises or yields `None`). |
| Routes.DetectDocumentCategory | backend/app/routes.py:56-75 | Over the corrected service: a missing document is answered 404 with `{'error': 'Document not found'}` and a client failure 500, both with the store untouched; a found one is answered, and the store updated, as in the as-written handler. |

## Left out

- HTTP plumbing is not modelled: Flask blueprints, `create_app`, `jsonify` serialization and logging. Bodies are JSON values.
- The delete handler is not modelled: `routes.py` defines no delete route, although the service has `delete_document`.
- The request headers of `openai_config.py` are not modelled. The payload fields that only tune sampling are left out: `temperature`, `top_p`, the penalties, `response_format` and `stream_options`.
- boto3 client creation and credentials are not modelled. Any client failure is the constant `reachable`, and the client's own error texts are one constant message.
- S3 returns listed keys in lexicographic order and at most 1000 per call. The model leaves the order open (`ListKeys`) and does not model paging.
- `uuid.uuid4`, `secure_filename` and `datetime.utcnow` are parameters: the uuid, the sanitized name and one timestamp. The timestamp is also the object's modification time.
- tiktoken, the OpenAI SDK, `requests` and the PDF/DOCX/XLSX extractors are uninterpreted functions held by the classifier.
- OpenAIChat.StreamChatCompletionContent: connection errors and payloads that decode to JSON that is not an object are not modelled. Both raise in the source, but the model's session always answers and its decoder yields a choice list or nothing. The fallback is therefore `None` only for an HTTP error status.
- Classification.DocumentClassifier.TruncateTextToTokens: the result's own token count is not bounded. The tokenizer is uninterpreted, so nothing relates the encoding of the decoded prefix to the prefix.
- Exception texts raised by other libraries are the model's own constants: a missing tokenizer (the source logs "Failed to load tokenizer for model …" and re-raises tiktoken's exception), an HTTP error status (`HTTPError <status>`, standing for `raise_for_status`'s message), the S3 client's errors, and the unbound `category`.
- Strings.Lower: only ASCII letters are lower-cased, while `str.lower()` folds every Unicode upper-case letter. For `x.Ä` the source refuses the name and the model accepts it; `DocumentUtils.AllowedFile` and `Classification.FileExtension` inherit this.
- JSON numbers with a fraction part are not modelled; `Json` numbers are integers.
- Routes.DetectDocumentCategory: a truthy `document_id` that is not a string is answered 500 without a lookup. As written that is the source's answer (the lookup raises for a missing object, and `detect_category` cannot `split` a non-string name); with the corrected lookup a missing object would be answered 404.
- S3Storage.S3FileStorage.UploadFile: the stream position after the client reads the bytes is a detail of boto3 and is not stated.
- `IDocumentStorage`, the abstract storage interface, is not modelled. The service holds the concrete store.
- The frontend is not modelled.

## Findings

| source | as written | input that shows it | evidently intended | confidence | as-written member | corrected member |
|---|---|---|---|---|---|---|
| backend/app/storage/s3_file_storage.py:104-117 | `find_file_object_by_document_id` re-raises every `get_object` failure, a missing key included. The service's `if not document_object` test (backend/app/services/document_service.py:28-30) therefore never fires, and `/detect` answers 500. The model chains the lookup as written (`S3Storage.S3FileStorage.FindFileObjectByDocumentId`) through the service into the handler; the corrected chain runs over `S3Storage.S3FileStorage.LookupDocumentObject`. | `POST /detect` with `{"document_id": "nonexistent"}` and no object `documents/nonexistent` | a missing document answers 404 `{"error": "Document not found"}`, the branch at backend/app/routes.py:68-69 | high, not executed | Routes.DetectDocumentCategoryAsWritten | Routes.DetectDocumentCategory |
