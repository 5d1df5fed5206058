# News AI Summarizer: a Dafny model of the processor and the Slack formatter

This project models two AWS Lambda functions of the news summarizer.

- **The news processor** (`lambda/news_processor/lambda_function.py`) does these steps:
  - reads the backlog of unprocessed articles from S3 or DynamoDB;
  - asks a Bedrock model for a summary of each article;
  - writes the summary back;
  - keeps, in order, the articles whose write-back succeeded;
  - mails a plain-text digest of them through SES, falling back to SNS;
  - reports the kept articles by id, title and source.
- **The SNS-to-Slack relay** (`lambda/sns_to_slack/lambda_function.py`) decodes an SNS message and turns it into Slack Block Kit blocks:
  - decoding happens twice when the message holds a JSON string;
  - an article list gives a header, then per article a divider, the title with its source, the summary cut to 2900 characters plus "...", and a link block for a real link;
  - any other value is dumped under the header;
  - on any exception the relay sends a plain two-block fallback.

  `terraform/lambda_function.py` is the same file, byte for byte. The model of the relay covers both copies: every row below that cites `lambda/sns_to_slack/lambda_function.py` applies to the same lines of `terraform/lambda_function.py`.

## Structure

- **`PyValues`**: decoded JSON as Python sees it.
  - Dicts are ordered association lists.
  - Also models `get`, subscripts, `len`, truthiness, and `str()`/`repr()` as f-strings render them.
  - Also holds small generic sequence lemmas.
- **`SlackFormat`**: `format_message`.
  - A specification function `FormatSpec`.
  - The loop `FormatMessage`/`AppendArticles`/`AppendArticle`, proved against it.
  - Lemmas on the block layout.
- **`SlackHandler`**: the decode-and-fallback part of the relay's `lambda_handler`.
- **`Summarizer`**: `summarize_article_with_bedrock`.
  - The request shape is selected by a case-insensitive "claude" test, which is proved equivalent to "some window of the model id spells claude".
  - The call to Bedrock is the parameter `invoke`.
- **`Storage`**: the storage helpers.
  - The S3 fetch is two nested loops over listing pages and objects. It creates one fresh `ArticleDict` per unprocessed article and is proved against `S3Backlog`.
  - The DynamoDB filter.
  - `update_article_in_s3`, which changes the dict in place.
- **`Notify`**: the digest text and the two senders.
  - The `+=` loop is proved against `Digest`.
  - SES comes first, with the SNS fallback.
- **`Pipeline`**: `process_articles` and the result of `lambda_handler`.
  - The run is the specification function `Processed` over the backlog.
  - The method loop over the article objects is proved against it.
  - Lemmas state order, selection and bounds.

The code has no retries, backoff, batching or pacing: it makes at most one model call per article, and none for an article whose content is missing or empty. Notification is an SES email with an SNS fallback. Slack is reached only through whatever subscribes to the SNS topic.

`STORAGE_TYPE` chooses the store: 's3' selects S3, and every other value takes the DynamoDB branches. The DynamoDB table object is created only for the exact value 'dynamodb'.

- With any other value, `scan` and `update_item` are called on None.
- Both raise, and both failures are caught.
- So the backlog is empty and nothing is processed.

The model follows the code here.

## Model

| member | source | states |
|---|---|---|
| PyValues.GetOr | lambda/news_processor/lambda_function.py:68-71 | `d.get(k, default)` gives the stored value when the key is present and the default when it is absent |
| PyValues.Put | lambda/news_processor/lambda_function.py:158-160 | dict assignment stores the value under the key, leaves every other key's value unchanged, and grows the dict only for a new key |
| PyValues.Subscript | lambda/news_processor/lambda_function.py:123 | `j[key]` gives the stored member, item or character when it exists. A missing dict key raises KeyError with the quoted key as its text, and an out-of-range list index raises "list index out of range". An integer subscript of a dict, a string subscript of a list or of a string, and an out-of-range string index raise. Only dicts, lists and strings can succeed |
| PyValues.Len | lambda/sns_to_slack/lambda_function.py:110 | `len` succeeds exactly on strings, lists and dicts, and gives their number of characters, items and keys |
| Summarizer.ClaudeIffMentioned | lambda/news_processor/lambda_function.py:96 | `"claude" in model_id.lower()` holds exactly when some six-character window of the id spells "claude" in any mix of case |
| Summarizer.BuildRequest | lambda/news_processor/lambda_function.py:96-111 | a Claude id gets the messages body (`anthropic_version` bedrock-2023-05-31, one user message holding the prompt), any other id the flat prompt body; both ask for 1000 tokens |
| Summarizer.Request | lambda/news_processor/lambda_function.py:68-75 | no request is made exactly when the article's content is missing or falsy |
| Summarizer.PromptLanguage | lambda/news_processor/lambda_function.py:78-93 | the Japanese template is used exactly when `language` is "ja", the English one otherwise (including when the key is missing) |
| Summarizer.ParseResponse | lambda/news_processor/lambda_function.py:122-125 | For a Claude model, the result succeeds exactly when `content` is a non-empty list whose first item is a dict with `text`; it is then that value. Any other missing key, index or wrong type raises. For other models a dict body yields `completion` (default "") and a non-dict body raises |
| Summarizer.Summarize | lambda/news_processor/lambda_function.py:64-131 | empty content gives the sentinel text; an exception from the call gives the error prefix followed by its text |
| Summarizer.SummarizeOutcomes | lambda/news_processor/lambda_function.py:64-131 | summarisation never raises: the result is the sentinel (whatever the model would do), an error text for a failed call or parse, or the parsed value |
| Storage.S3BacklogUnprocessed | lambda/news_processor/lambda_function.py:55-57 | every article the S3 fetch returns has a falsy or absent `processed` flag |
| Storage.ScanKeysComplete | lambda/news_processor/lambda_function.py:50-57 | every readable unprocessed object of a page is returned, unless the page's scan raised |
| Storage.S3BacklogComplete | lambda/news_processor/lambda_function.py:48-59 | an unprocessed article under a key of any listed page is in the backlog whenever no listing or read raised |
| Storage.ListFailureEmptiesBacklog | lambda/news_processor/lambda_function.py:60-62 | one page that cannot be listed gives the empty list, so a fetch error looks like an empty backlog |
| Storage.GetUnprocessedFromS3 | lambda/news_processor/lambda_function.py:39-62 | the page loop returns fresh, distinct dicts whose contents are `S3Backlog`: the unprocessed articles in listing order, or [] on any exception |
| Storage.CollectPage | lambda/news_processor/lambda_function.py:50-57 | the object loop fails exactly when reading some object fails; otherwise it appends exactly the page's unprocessed articles, in order, as fresh dicts |
| Storage.DynamoBacklog | lambda/news_processor/lambda_function.py:24-37 | a failed scan gives []; the result holds exactly the scanned items whose `processed` is the boolean false, and none of them counts as processed in S3 terms |
| Storage.DynamoBacklogOrder | lambda/news_processor/lambda_function.py:34 | the matching items come back in scan order, each once: their positions increase, and every matching item's position is included |
| Storage.GetUnprocessedFromDynamo | lambda/news_processor/lambda_function.py:34 | the scanned items become fresh, distinct dicts with the contents of `DynamoBacklog` |
| Storage.MarkProcessed | lambda/news_processor/lambda_function.py:157-160 | the marked dict holds the summary, `processed` True and the timestamp; every other key is unchanged |
| Storage.WrittenBackLeavesBacklog | lambda/news_processor/lambda_function.py:158-160 | a marked article is excluded by both the S3 and the DynamoDB backlog filter |
| Storage.UpdateArticleInS3 | lambda/news_processor/lambda_function.py:150-173 | without `id` or `source` nothing changes and the result is False; otherwise the dict is marked in place first, then written under `articles/{source}/{id}.json`, and the result is that write's success |
| Notify.DigestLayout | lambda/news_processor/lambda_function.py:203-223 | the digest is the dated header followed by each article's entry, in order |
| Notify.EntryText | lambda/news_processor/lambda_function.py:220-223 | an article with string title, source, summary and link contributes those four lines |
| Notify.EntryDefaults | lambda/news_processor/lambda_function.py:207-210 | an article without the four keys gets "No Title", "Unknown Source", "No summary available" and "#" |
| Notify.AppendEntry | lambda/news_processor/lambda_function.py:276-285 | the four `+=` of one article append exactly its entry |
| Notify.RenderDigest | lambda/news_processor/lambda_function.py:273-285 | the text-building loop produces `Digest(date, articles)` |
| Notify.SendSnsNotification | lambda/news_processor/lambda_function.py:263-297 | without a topic, no publish and the result is False; otherwise one publish of the digest under "News Summary - date", and the result is its success |
| Notify.SendEmailNotification | lambda/news_processor/lambda_function.py:175-261 | its deliveries are `EmailAttempts`; the result is True exactly when an address is set and SES sent the mail |
| Notify.EmailFallback | lambda/news_processor/lambda_function.py:229-257 | with no address, nothing is sent; SES is tried first and once; SNS is tried at most once, only after a ClientError with a topic set, and with the same digest text |
| Pipeline.WriteBackEffect | lambda/news_processor/lambda_function.py:318-322 | DynamoDB branch: one update keyed by `article.get('id')`, False when there is no table, dict untouched. S3 mode: without a key, nothing happens and the result is False; with a key, the dict afterwards is `MarkProcessed` of the original with its summary and the run's timestamp, every other key kept (so it leaves the backlog and its id, title and source are unchanged), and the result is the put's success |
| Pipeline.UnknownStorageProcessesNothing | lambda/news_processor/lambda_function.py:22 | a storage type other than 's3' and 'dynamodb' has no table, so the backlog is empty and the report counts 0 articles |
| Pipeline.OutcomeEffect | lambda/news_processor/lambda_function.py:324-328 | an article joins the result exactly when its write-back succeeded; the copy holds the summary and otherwise the written-back fields |
| Pipeline.ErrorSummaryWrittenBack | lambda/news_processor/lambda_function.py:316-320 | a failed model call does not stop the S3 write-back: the error text is stored as the summary and the article is marked processed |
| Pipeline.ProcessedSelects | lambda/news_processor/lambda_function.py:312-328 | the result is exactly the successfully written articles' copies, one each, in backlog order (given as increasing positions) |
| Pipeline.AllWrittenBack | lambda/news_processor/lambda_function.py:312-328 | when every write-back succeeds, the result has one copy per backlog article, position by position |
| Pipeline.ProcessedBound | lambda/news_processor/lambda_function.py:312-328 | the result never holds more articles than the backlog |
| Pipeline.SummarizeOne | lambda/news_processor/lambda_function.py:313-322 | one loop turn: the summary, the dict as its write-back leaves it, and the write-back's success |
| Pipeline.SummarizeAt | lambda/news_processor/lambda_function.py:313-328 | one turn of the loop: the article object ends as the i-th entry of `Written`, and the list grows to `Processed` of the first i+1 articles, with the summary appended exactly when the write-back succeeded |
| Pipeline.SummarizeAll | lambda/news_processor/lambda_function.py:312-328 | the loop returns `Processed` of the backlog and leaves each article object as its write-back made it |
| Pipeline.ProcessArticles | lambda/news_processor/lambda_function.py:299-334 | the result is `Processed` of the configured store's backlog; the email sender is called exactly when the result is non-empty, once; at most two deliveries are attempted |
| Pipeline.RefOf | lambda/news_processor/lambda_function.py:349-353 | each of id, title and source is reported as stored, or as None when the key is missing; the id is None exactly when it is missing or null |
| Pipeline.ReportOf | lambda/news_processor/lambda_function.py:345-355 | status 200; `articles_processed` equals the length of the result and of the list; entry i refers to article i |
| Pipeline.LambdaHandler | lambda/news_processor/lambda_function.py:336-367 | the report describes `Processed` of the backlog, counts no more than the backlog, and deliveries happen only with some article processed and an address set |
| Pipeline.ReportListsBacklog | lambda/news_processor/lambda_function.py:345-355 | in either storage mode, with every write-back succeeding, the report lists every backlog article in order under its own id, title and source |
| SlackFormat.HeaderText | lambda/sns_to_slack/lambda_function.py:69 | the header is the subject when it is non-empty, and "AWS News Summary" when it is missing or empty |
| SlackFormat.TruncateSummary | lambda/sns_to_slack/lambda_function.py:109-111 | a string summary of up to 2900 characters is kept; a longer one becomes its first 2900 characters plus "...", 2903 in all; a non-string passes only when `len` works and is at most 2900, and is kept as it is |
| SlackFormat.ArticleLayout | lambda/sns_to_slack/lambda_function.py:91-129 | an article renders exactly when it is a dict whose summary can be cut; it gives a divider, the title-and-source section, the summary section, and a link section only for a real link (so 4 or 3 blocks) |
| SlackFormat.Iterate | lambda/sns_to_slack/lambda_function.py:91 | iteration succeeds exactly on lists, strings and dicts. A list yields its own items, a string its one-character strings in order, and a dict its keys in order |
| SlackFormat.FormatSpec | lambda/sns_to_slack/lambda_function.py:62-131 | the header always comes first; a message that is neither a list nor a dict with "articles" gives the header and the JSON dump, nothing more |
| SlackFormat.FormatMessage | lambda/sns_to_slack/lambda_function.py:62-131 | the method builds exactly `FormatSpec` |
| SlackFormat.AppendArticles | lambda/sns_to_slack/lambda_function.py:91-129 | the article loop appends each article's blocks in order, or fails as soon as one article raises |
| SlackFormat.AppendArticle | lambda/sns_to_slack/lambda_function.py:92-129 | one loop turn appends exactly that article's blocks |
| SlackFormat.ArticlesBlocksShape | lambda/sns_to_slack/lambda_function.py:91-129 | article input succeeds exactly when every article renders; then there is one divider per article and 3 blocks per article plus 1 per real link |
| SlackFormat.ArticlePlacement | lambda/sns_to_slack/lambda_function.py:91-131 | in a formatted article list, article i's blocks follow the header and the blocks of the articles before it, and precede those of the articles after it |
| SlackFormat.TextArticlesFail | lambda/sns_to_slack/lambda_function.py:77-95 | an "articles" value that is a non-empty string or dict is iterated as strings, `.get` raises, and formatting fails |
| SlackFormat.MissingLinkAddsNoBlock | lambda/sns_to_slack/lambda_function.py:95 | an article without "link" defaults to '#' and gets no link block |
| SlackHandler.Decode | lambda/sns_to_slack/lambda_function.py:25-29 | a decoded string is decoded again; any other decoded value is used as it is; a failed decode fails |
| SlackHandler.Fallback | lambda/sns_to_slack/lambda_function.py:35-52 | exactly two blocks: the header, then the raw message text |
| SlackHandler.Handle | lambda/sns_to_slack/lambda_function.py:23-52 | the blocks start with the header; they are the formatted message when decoding and formatting succeed, and the fallback otherwise |
| SlackHandler.DoubleDecodedArticles | lambda/sns_to_slack/lambda_function.py:25-31 | a message holding a JSON string of an article list is formatted from the inner list, with one divider per article |

## Left out

- AWS calls are parameters, not models of the services:
  - Bedrock `invoke_model` with the decoding of its body is `invoke`;
  - S3 listing pages and `get_object` are `pages` and `read`;
  - DynamoDB `scan` is `scanned`;
  - `put_object` is `put`, `update_item` is `update`, SES `send_email` is `send`, SNS `publish` is `publish`.

  Each gives a result or a failure, with the message as a parameter value.
- Each AWS parameter is a mathematical function of its arguments. So two identical calls in one run give the same outcome. For example, two articles with equal title, source, content and language get the same Bedrock outcome, so a throttled second call among identical ones cannot be expressed. No proved property depends on this.
- `json.loads` is the parameter `parse` (None where it raises).
- `json.dumps` is not modelled:
  - the raw dump section is the block `DumpSection(value)`;
  - the request body is kept as structured data.
- The clock is two values per run: `now` for every `processed_at` and `date` for every dated text. The code calls `datetime.now()` separately each time, so stamps taken across a second or midnight may differ. The model does not capture that.
- The prompt templates' wording: a prompt is its language choice plus the rendered title, source and content.
- The HTML email body. Only the plain-text body, which is also the SNS message, is modelled.
- Floating-point JSON numbers and DynamoDB `Decimal` values. `repr()` escapes only ASCII control characters, so non-ASCII escapes and printability are not modelled.
- Exception message texts are modelled only where they reach an output. These are the Python messages of the subscript and `.get` errors in the summary path, which become error summaries. Other messages only reach the logs.
- `Notify.SendEmailNotification`: a ClientError whose response lacks `Error.Message` makes the log line raise, and the fallback is then skipped. The model assumes the message is present.
- The DynamoDB scan reads one page only; `LastEvaluatedKey` is ignored, as in the code.
- `Pipeline.LambdaHandler`:
  - the API Gateway envelope (status 200, headers, JSON body) is not modelled;
  - the 500 error branch is not modelled. `process_articles` catches every failure of its steps. For an API Gateway event, the branch is reached when `json.dumps(result)` raises (lambda/news_processor/lambda_function.py:364), for instance on DynamoDB `Decimal` values in an article's id, title or source; the model does not represent JSON serialisability;
  - an event without `.get` is not modelled: the handler's first line raises, and the except clause's own `event.get` (:374) raises again, so the invocation fails without a response.
- Logging (`print`, `logger.info`) is not modelled.
- Relay event extraction (`event['Records'][0]['Sns']`), `post_to_slack` (an HTTP POST to the webhook) and the relay's return value are not modelled.
- `lambda/news_collector` and `lambda/news_processor_async` are not part of this model.
- Concurrency: the Lambdas run single-threaded per invocation, and concurrent invocations sharing the stores are not modelled.
- Retries, backoff, batching and pacing are absent from the code and are not modelled.
