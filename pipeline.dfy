/** `process_articles` and `lambda_handler` of the news processor: read the
    unprocessed backlog from the configured store, summarise each article,
    write the summary back, collect the articles whose write-back
    succeeded, mail the digest of those, and report them. */
module Pipeline {
  import opened PyValues
  import opened Summarizer
  import opened Storage
  import opened Notify

  /** The environment variables the run reads. */
  datatype Config = Config(storageType: string, modelId: string,
                           email: Option<string>, topic: Option<string>)

  /** The AWS calls and the clock, as the run sees them. `now` is the
      `isoformat()` stamp written with each summary and `date` the
      `strftime('%Y-%m-%d')` date of the notification. */
  datatype Services = Services(invoke: Invoker, put: ObjectWriter, update: ItemUpdater,
                               send: Mailer, publish: Publisher, now: string, date: string)

  /** What the stores hold: the S3 listing pages with the object reader,
      and the items of the DynamoDB scan (or the text of its exception). */
  datatype Stores = Stores(pages: seq<Page>, read: ObjectReader, scanned: Result<seq<Dict>>)

  /** `STORAGE_TYPE == 's3'` selects S3; every other value takes the
      DynamoDB branches of `process_articles`. */
  predicate UsesS3(cfg: Config) {
    cfg.storageType == "s3"
  }

  /** The DynamoDB table object exists only when `STORAGE_TYPE` is exactly
      'dynamodb'; for any other value it is None. */
  predicate HasTable(cfg: Config) {
    cfg.storageType == "dynamodb"
  }

  /** What the DynamoDB scan gives: the table's items, or, without a table,
      the AttributeError of calling `scan` on None. */
  function Scanned(cfg: Config, stores: Stores): Result<seq<Dict>> {
    if HasTable(cfg) then stores.scanned else Err("'NoneType' object has no attribute 'scan'")
  }

  /** The unprocessed articles the run starts from. */
  function Backlog(cfg: Config, stores: Stores): seq<Dict> {
    if UsesS3(cfg) then S3Backlog(stores.pages, stores.read) else DynamoBacklog(Scanned(cfg, stores))
  }

  /** A storage type that is neither 's3' nor 'dynamodb' leaves no table to
      scan, so the backlog is empty and the run processes nothing. */
  lemma UnknownStorageProcessesNothing(cfg: Config, svc: Services, stores: Stores)
    requires !UsesS3(cfg) && !HasTable(cfg)
    ensures Backlog(cfg, stores) == []
    ensures ReportOf(Processed(cfg, svc, Backlog(cfg, stores))) == Report(200, 0, [])
  {
    assert ReportOf([]).articles == [];
  }

  function Summary(cfg: Config, svc: Services, d: Dict): Json {
    Summarize(d, cfg.modelId, svc.invoke)
  }

  /** The article dict after its write-back, and whether the write-back
      reported success. */
  datatype Update = Update(after: Dict, ok: bool)

  /** The write-back of one article's summary: `update_article_in_s3`,
      which marks the dict itself, or `update_article_in_dynamodb` keyed by
      `article.get('id')`, which leaves the dict as it is. */
  function WriteBack(cfg: Config, svc: Services, d: Dict): Update {
    var summary := Summary(cfg, svc, d);
    if UsesS3(cfg) then
      match S3Key(d)
      case None => Update(d, false)
      case Some(key) =>
        var marked := MarkProcessed(d, summary, svc.now);
        Update(marked, svc.put(key, marked))
    else
      Update(d, HasTable(cfg) && svc.update(GetOr(d, "id", JNull), summary, svc.now))
  }

  /** What a write-back does: in DynamoDB mode one `update_item` keyed by
      the article's id (None when it has none), False when there is no
      table, and the dict untouched; in S3 mode nothing at all without
      "id" and "source", and otherwise the dict marked processed with the
      summary and the stamp, leaving the backlog, then written under its
      key. */
  lemma WriteBackEffect(cfg: Config, svc: Services, d: Dict)
    ensures var u := WriteBack(cfg, svc, d);
            && (!UsesS3(cfg) ==>
                  u.after == d &&
                  u.ok == (HasTable(cfg) && svc.update(GetOr(d, "id", JNull), Summary(cfg, svc, d), svc.now)))
            && (UsesS3(cfg) && S3Key(d).None? ==> u == Update(d, false))
            && (UsesS3(cfg) && S3Key(d).Some? ==>
                  && u.after == MarkProcessed(d, Summary(cfg, svc, d), svc.now)
                  && !UnprocessedInS3(u.after)
                  && Lookup(u.after, "summary") == Some(Summary(cfg, svc, d))
                  && Lookup(u.after, "processed_at") == Some(JStr(svc.now))
                  && u.ok == svc.put(S3Key(d).value, u.after))
  {
    if UsesS3(cfg) && S3Key(d).Some? {
      WrittenBackLeavesBacklog(d, Summary(cfg, svc, d), svc.now);
    }
  }

  /** The copy of an article that joins the result when its write-back
      succeeded: the dict after the write-back, with the summary set. */
  function Outcome(cfg: Config, svc: Services, d: Dict): Option<Dict> {
    var u := WriteBack(cfg, svc, d);
    if u.ok then Some(Put(u.after, "summary", Summary(cfg, svc, d))) else None
  }

  /** The copy is present exactly when the write-back succeeded; it holds
      the summary and otherwise the fields the write-back left. */
  lemma OutcomeEffect(cfg: Config, svc: Services, d: Dict)
    ensures var r := Outcome(cfg, svc, d);
            && (r.Some? <==> WriteBack(cfg, svc, d).ok)
            && (r.Some? ==> Lookup(r.value, "summary") == Some(Summary(cfg, svc, d)))
            && (r.Some? ==> forall k :: k != "summary" ==> Lookup(r.value, k) == Lookup(WriteBack(cfg, svc, d).after, k))
  {
  }

  /** The list `process_articles` returns for a backlog. */
  function Processed(cfg: Config, svc: Services, xs: seq<Dict>): seq<Dict> {
    if xs == [] then []
    else
      (match Outcome(cfg, svc, xs[0]) case Some(r) => [r] case None => []) +
      Processed(cfg, svc, xs[1..])
  }

  /** The backlog's dicts after the run: each one as its write-back left it. */
  function Written(cfg: Config, svc: Services, xs: seq<Dict>): (r: seq<Dict>)
    ensures |r| == |xs|
    ensures forall i :: 0 <= i < |xs| ==> r[i] == WriteBack(cfg, svc, xs[i]).after
  {
    seq(|xs|, i requires 0 <= i < |xs| => WriteBack(cfg, svc, xs[i]).after)
  }

  lemma {:induction false} ProcessedSnoc(cfg: Config, svc: Services, xs: seq<Dict>, x: Dict)
    ensures Processed(cfg, svc, xs + [x]) ==
              Processed(cfg, svc, xs) + match Outcome(cfg, svc, x) case Some(r) => [r] case None => []
  {
    var last := match Outcome(cfg, svc, x) case Some(r) => [r] case None => [];
    if xs == [] {
      assert xs + [x] == [x] && [x][1..] == [];
      assert last + [] == [] + last;
    } else {
      TailSnoc(xs, x);
      ProcessedSnoc(cfg, svc, xs[1..], x);
      var head := match Outcome(cfg, svc, xs[0]) case Some(r) => [r] case None => [];
      Assoc(head, Processed(cfg, svc, xs[1..]), last);
    }
  }

  /** The outcome of each article of a backlog, position by position. */
  function Outcomes(cfg: Config, svc: Services, xs: seq<Dict>): (r: seq<Option<Dict>>)
    ensures |r| == |xs|
    ensures forall i :: 0 <= i < |xs| ==> r[i] == Outcome(cfg, svc, xs[i])
  {
    seq(|xs|, i requires 0 <= i < |xs| => Outcome(cfg, svc, xs[i]))
  }

  /** The result is what the outcomes keep. */
  lemma {:induction false} ProcessedKept(cfg: Config, svc: Services, xs: seq<Dict>)
    ensures Processed(cfg, svc, xs) == Kept(Outcomes(cfg, svc, xs))
  {
    if xs != [] {
      ProcessedKept(cfg, svc, xs[1..]);
      assert Outcomes(cfg, svc, xs)[1..] == Outcomes(cfg, svc, xs[1..]);
    }
  }

  /** The result keeps the backlog's order and drops exactly the articles
      whose write-back failed: `idx` lists the positions of the successful
      articles in increasing order, and the result holds their copies, one
      each, in that order. */
  lemma ProcessedSelects(cfg: Config, svc: Services, xs: seq<Dict>) returns (idx: seq<nat>)
    ensures |idx| == |Processed(cfg, svc, xs)|
    ensures forall k :: 0 <= k < |idx| ==>
              idx[k] < |xs| && Outcome(cfg, svc, xs[idx[k]]) == Some(Processed(cfg, svc, xs)[k])
    ensures forall k, l :: 0 <= k < l < |idx| ==> idx[k] < idx[l]
    ensures forall i :: 0 <= i < |xs| && WriteBack(cfg, svc, xs[i]).ok ==> i in idx
  {
    ProcessedKept(cfg, svc, xs);
    var os := Outcomes(cfg, svc, xs);
    idx := KeptSelects(os);
    forall i | 0 <= i < |xs| && WriteBack(cfg, svc, xs[i]).ok
      ensures i in idx
    {
      assert os[i].Some?;
    }
  }

  /** When every write-back succeeds, the result has one copy per article,
      in order: the i-th entry is the outcome of the i-th article. */
  lemma AllWrittenBack(cfg: Config, svc: Services, xs: seq<Dict>)
    requires forall i :: 0 <= i < |xs| ==> WriteBack(cfg, svc, xs[i]).ok
    ensures |Processed(cfg, svc, xs)| == |xs|
    ensures forall i :: 0 <= i < |xs| ==> Outcome(cfg, svc, xs[i]) == Some(Processed(cfg, svc, xs)[i])
  {
    ProcessedKept(cfg, svc, xs);
    AllKept(Outcomes(cfg, svc, xs));
  }

  /** A failed model call does not stop the write-back: in S3 mode the
      article is still marked processed, with the error text stored as its
      summary, and so it leaves the backlog. */
  lemma ErrorSummaryWrittenBack(cfg: Config, svc: Services, d: Dict)
    requires UsesS3(cfg) && S3Key(d).Some?
    requires Truthy(ContentOf(d)) && svc.invoke(cfg.modelId, Request(d, cfg.modelId).value).Err?
    ensures var u := WriteBack(cfg, svc, d);
            && !UnprocessedInS3(u.after)
            && Lookup(u.after, "summary") ==
                 Some(JStr(ErrorPrefix + svc.invoke(cfg.modelId, Request(d, cfg.modelId).value).msg))
  {
    WriteBackEffect(cfg, svc, d);
  }

  /** The loop of `process_articles`: summarise, write back, and keep a
      copy with the summary when the write-back succeeded. In S3 mode the
      article dicts themselves are changed by the write-back. */
  method SummarizeAll(cfg: Config, svc: Services, articles: seq<ArticleDict>)
    returns (out: seq<Dict>)
    requires Distinct(articles)
    modifies set a | a in articles
    ensures out == Processed(cfg, svc, old(FieldsOf(articles)))
    ensures FieldsOf(articles) == Written(cfg, svc, old(FieldsOf(articles)))
  {
    ghost var before := FieldsOf(articles);
    ghost var after := Written(cfg, svc, before);
    out := [];
    var i := 0;
    assert before[..0] == [];
    while i < |articles|
      invariant 0 <= i <= |articles|
      invariant forall j :: 0 <= j < |articles| ==> articles[j].fields == if j < i then after[j] else before[j]
      invariant out == Processed(cfg, svc, before[..i])
    {
      out := SummarizeAt(cfg, svc, articles[i], before, i, out);
      i := i + 1;
    }
    assert before[..i] == before;
    assert FieldsOf(articles) == after;
  }

  /** One turn of that loop, for the i-th article of the backlog `xs`:
      the article is written back and the result grows by its outcome. */
  method SummarizeAt(cfg: Config, svc: Services, article: ArticleDict, ghost xs: seq<Dict>, i: nat,
                     out: seq<Dict>) returns (next: seq<Dict>)
    requires i < |xs| && article.fields == xs[i]
    requires out == Processed(cfg, svc, xs[..i])
    modifies article
    ensures article.fields == Written(cfg, svc, xs)[i]
    ensures next == Processed(cfg, svc, xs[..i + 1])
  {
    var ok, summary := SummarizeOne(cfg, svc, article);
    ProcessedStep(cfg, svc, xs, i, article.fields, ok, summary);
    next := out;
    if ok {
      next := next + [Put(article.fields, "summary", summary)];
    }
  }

  /** The result after one more article of the backlog. */
  lemma ProcessedStep(cfg: Config, svc: Services, xs: seq<Dict>, i: nat, after: Dict, ok: bool, summary: Json)
    requires i < |xs|
    requires summary == Summary(cfg, svc, xs[i])
    requires after == WriteBack(cfg, svc, xs[i]).after && ok == WriteBack(cfg, svc, xs[i]).ok
    ensures Processed(cfg, svc, xs[..i + 1]) ==
              Processed(cfg, svc, xs[..i]) + if ok then [Put(after, "summary", summary)] else []
  {
    ProcessedSnoc(cfg, svc, xs[..i], xs[i]);
    PrefixSnoc(xs, i);
  }

  /** One turn of that loop, for one article dict. */
  method SummarizeOne(cfg: Config, svc: Services, article: ArticleDict) returns (ok: bool, summary: Json)
    modifies article
    ensures summary == Summary(cfg, svc, old(article.fields))
    ensures article.fields == WriteBack(cfg, svc, old(article.fields)).after
    ensures ok == WriteBack(cfg, svc, old(article.fields)).ok
  {
    summary := Summarize(article.fields, cfg.modelId, svc.invoke);
    if UsesS3(cfg) {
      ok := UpdateArticleInS3(article, summary, svc.now, svc.put);
    } else {
      ok := HasTable(cfg) && svc.update(GetOr(article.fields, "id", JNull), summary, svc.now);
    }
  }

  /** `process_articles`: fetch the backlog from the configured store,
      summarise and write back each article, and call the email sender
      (with its SNS fallback) once, only when some article made it into
      the result. `notified` says whether the sender was called and
      `attempts` lists the deliveries it asked for. */
  method ProcessArticles(cfg: Config, svc: Services, stores: Stores)
    returns (out: seq<Dict>, notified: bool, attempts: seq<Attempt>)
    ensures out == Processed(cfg, svc, Backlog(cfg, stores))
    ensures notified <==> out != []
    ensures attempts == if notified then EmailAttempts(cfg.email, cfg.topic, svc.date, out, svc.send) else []
    ensures |attempts| <= 2
  {
    var articles: seq<ArticleDict>;
    if UsesS3(cfg) {
      articles := GetUnprocessedFromS3(stores.pages, stores.read);
    } else {
      articles := GetUnprocessedFromDynamo(Scanned(cfg, stores));
    }
    out := SummarizeAll(cfg, svc, articles);
    notified := false;
    attempts := [];
    if out != [] {
      var _, sent := SendEmailNotification(cfg.email, cfg.topic, svc.date, out, svc.send, svc.publish);
      EmailFallback(cfg.email, cfg.topic, svc.date, out, svc.send);
      notified := true;
      attempts := sent;
    }
  }

  /** One entry of the handler's `articles` list; a missing key gives None. */
  datatype ArticleRef = ArticleRef(id: Json, title: Json, source: Json)

  /** The dict `lambda_handler` returns when not called through API Gateway. */
  datatype Report = Report(statusCode: int, articlesProcessed: int, articles: seq<ArticleRef>)

  function RefOf(d: Dict): (r: ArticleRef)
    ensures r.id.JNull? <==> Lookup(d, "id").None? || Lookup(d, "id") == Some(JNull)
    ensures Lookup(d, "id").Some? ==> r.id == Lookup(d, "id").value
    ensures Lookup(d, "title").Some? ==> r.title == Lookup(d, "title").value
    ensures Lookup(d, "source").Some? ==> r.source == Lookup(d, "source").value
    ensures Lookup(d, "title").None? ==> r.title == JNull
    ensures Lookup(d, "source").None? ==> r.source == JNull
  {
    ArticleRef(GetOr(d, "id", JNull), GetOr(d, "title", JNull), GetOr(d, "source", JNull))
  }

  function ReportOf(out: seq<Dict>): (r: Report)
    ensures r.statusCode == 200
    ensures r.articlesProcessed == |r.articles| == |out|
    ensures forall i :: 0 <= i < |out| ==> r.articles[i] == RefOf(out[i])
  {
    Report(200, |out|, seq(|out|, i requires 0 <= i < |out| => RefOf(out[i])))
  }

  /** `lambda_handler`: runs `process_articles` and reports how many
      articles it returned, with their id, title and source. */
  method LambdaHandler(cfg: Config, svc: Services, stores: Stores)
    returns (report: Report, attempts: seq<Attempt>)
    ensures report == ReportOf(Processed(cfg, svc, Backlog(cfg, stores)))
    ensures report.articlesProcessed <= |Backlog(cfg, stores)|
    ensures attempts != [] ==> report.articlesProcessed > 0 && Configured(cfg.email)
  {
    var out, notified;
    out, notified, attempts := ProcessArticles(cfg, svc, stores);
    ProcessedBound(cfg, svc, Backlog(cfg, stores));
    report := ReportOf(out);
  }

  /** The result never holds more articles than the backlog. */
  lemma {:induction false} ProcessedBound(cfg: Config, svc: Services, xs: seq<Dict>)
    ensures |Processed(cfg, svc, xs)| <= |xs|
  {
    if xs != [] {
      ProcessedBound(cfg, svc, xs[1..]);
    }
  }

  /** In either mode, when every write-back succeeds, the report lists
      every article of the backlog, in order, by its own id, title and
      source. */
  lemma ReportListsBacklog(cfg: Config, svc: Services, stores: Stores)
    requires forall i :: 0 <= i < |Backlog(cfg, stores)| ==> WriteBack(cfg, svc, Backlog(cfg, stores)[i]).ok
    ensures var report := ReportOf(Processed(cfg, svc, Backlog(cfg, stores)));
            && report.articlesProcessed == |Backlog(cfg, stores)|
            && forall i :: 0 <= i < |Backlog(cfg, stores)| ==>
                 report.articles[i] == RefOf(Backlog(cfg, stores)[i])
  {
    var xs := Backlog(cfg, stores);
    AllWrittenBack(cfg, svc, xs);
    forall i | 0 <= i < |xs|
      ensures RefOf(Processed(cfg, svc, xs)[i]) == RefOf(xs[i])
    {
      RefKept(cfg, svc, xs[i]);
    }
  }

  /** An article's copy has the article's own id, title and source: the
      DynamoDB write-back leaves the dict alone, and the S3 one changes
      only the summary and the two processing fields. */
  lemma RefKept(cfg: Config, svc: Services, d: Dict)
    requires WriteBack(cfg, svc, d).ok
    ensures RefOf(Outcome(cfg, svc, d).value) == RefOf(d)
  {
    var after := WriteBack(cfg, svc, d).after;
    WriteBackKeepsRef(cfg, svc, d);
    OutcomeEffect(cfg, svc, d);
    SameRef(Outcome(cfg, svc, d).value, after);
    SameRef(after, d);
  }

  /** The write-back never touches an article's id, title or source. */
  lemma WriteBackKeepsRef(cfg: Config, svc: Services, d: Dict)
    ensures var after := WriteBack(cfg, svc, d).after;
            && Lookup(after, "id") == Lookup(d, "id")
            && Lookup(after, "title") == Lookup(d, "title")
            && Lookup(after, "source") == Lookup(d, "source")
  {
    WriteBackEffect(cfg, svc, d);
    if UsesS3(cfg) && S3Key(d).Some? {
      var marked := MarkProcessed(d, Summary(cfg, svc, d), svc.now);
      assert "id" !in {"summary", "processed", "processed_at"};
      assert "title" !in {"summary", "processed", "processed_at"};
      assert "source" !in {"summary", "processed", "processed_at"};
      assert Lookup(marked, "id") == Lookup(d, "id");
      assert Lookup(marked, "title") == Lookup(d, "title");
      assert Lookup(marked, "source") == Lookup(d, "source");
    }
  }

  /** Two dicts that agree on id, title and source have the same reference. */
  lemma SameRef(a: Dict, b: Dict)
    requires Lookup(a, "id") == Lookup(b, "id")
    requires Lookup(a, "title") == Lookup(b, "title")
    requires Lookup(a, "source") == Lookup(b, "source")
    ensures RefOf(a) == RefOf(b)
  {
  }
}
