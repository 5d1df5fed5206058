/** The storage helpers of the news processor: reading the unprocessed
    backlog from S3 or DynamoDB and writing a summary back. The AWS calls
    are parameters: an S3 listing page, `get_object` with the JSON decoding
    of its body, the items of a DynamoDB scan, `put_object` and
    `update_item`, each of which may raise. */
module Storage {
  import opened PyValues

  /** A decoded article: the Python dict that the S3 fetch creates and
      `update_article_in_s3` changes in place. */
  class ArticleDict {
    var fields: Dict

    constructor (d: Dict)
      ensures fields == d
    {
      fields := d;
    }
  }

  /** The fields of every article, in order. */
  function FieldsOf(articles: seq<ArticleDict>): (r: seq<Dict>)
    reads articles
    ensures |r| == |articles|
    ensures forall i :: 0 <= i < |articles| ==> r[i] == articles[i].fields
  {
    seq(|articles|, i reads articles requires 0 <= i < |articles| => articles[i].fields)
  }

  predicate Distinct(articles: seq<ArticleDict>) {
    forall i, j :: 0 <= i < j < |articles| ==> articles[i] != articles[j]
  }

  // ---- Reading the backlog from S3 ----

  /** One page of `list_objects_v2` under the prefix "articles/": the keys
      of its "Contents" (None when the page has none), or a failure to list. */
  datatype Page = Listed(keys: Option<seq<string>>) | ListFailed

  /** `get_object` and `json.loads` of the body, for one key. */
  type ObjectReader = string -> Result<Json>

  /** `not article_data.get('processed', False)`: an absent flag counts as
      unprocessed. */
  predicate UnprocessedInS3(d: Dict) {
    !Truthy(GetOr(d, "processed", JBool(false)))
  }

  /** The article stored under a key, or None when reading it raises
      (including `.get` on a value that is not a dict). */
  function LoadArticle(key: string, read: ObjectReader): Option<Dict> {
    match read(key)
    case Ok(JObj(ms)) => Some(ms)
    case _ => None
  }

  /** The unprocessed articles among the objects of `keys`, or None when
      reading any of them raises. */
  function ScanKeys(keys: seq<string>, read: ObjectReader): Option<seq<Dict>> {
    if keys == [] then Some([])
    else
      match LoadArticle(keys[0], read)
      case None => None
      case Some(d) =>
        match ScanKeys(keys[1..], read)
        case None => None
        case Some(rest) => Some((if UnprocessedInS3(d) then [d] else []) + rest)
  }

  function ScanPage(page: Page, read: ObjectReader): Option<seq<Dict>> {
    match page
    case ListFailed => None
    case Listed(None) => Some([])
    case Listed(Some(keys)) => ScanKeys(keys, read)
  }

  function ScanPages(pages: seq<Page>, read: ObjectReader): Option<seq<Dict>> {
    if pages == [] then Some([])
    else
      match ScanPage(pages[0], read)
      case None => None
      case Some(first) =>
        match ScanPages(pages[1..], read)
        case None => None
        case Some(rest) => Some(first + rest)
  }

  /** What `get_unprocessed_articles_from_s3` returns: every failure gives
      the empty list, like an empty backlog does. */
  function S3Backlog(pages: seq<Page>, read: ObjectReader): seq<Dict> {
    match ScanPages(pages, read)
    case None => []
    case Some(articles) => articles
  }

  /** Combining a prefix's scan with the scan of one more element. */
  function Then(first: Option<seq<Dict>>, next: Option<seq<Dict>>): Option<seq<Dict>> {
    match first
    case None => None
    case Some(xs) =>
      match next
      case None => None
      case Some(ys) => Some(xs + ys)
  }

  lemma {:induction false} ScanKeysSnoc(keys: seq<string>, k: string, read: ObjectReader)
    ensures ScanKeys(keys + [k], read) ==
              Then(ScanKeys(keys, read),
                   match LoadArticle(k, read)
                   case None => None
                   case Some(d) => Some(if UnprocessedInS3(d) then [d] else []))
  {
    if keys == [] {
      assert keys + [k] == [k] && [k][1..] == [];
      match LoadArticle(k, read)
      case None =>
      case Some(d) =>
        var taken := if UnprocessedInS3(d) then [d] else [];
        assert taken + [] == [] + taken;
    } else {
      assert (keys + [k])[1..] == keys[1..] + [k];
      ScanKeysSnoc(keys[1..], k, read);
      match LoadArticle(keys[0], read)
      case None =>
      case Some(d) =>
        match ScanKeys(keys[1..], read)
        case None =>
        case Some(rest) =>
          match LoadArticle(k, read)
          case None =>
          case Some(e) =>
            var head := if UnprocessedInS3(d) then [d] else [];
            var tail := if UnprocessedInS3(e) then [e] else [];
            assert head + (rest + tail) == (head + rest) + tail;
    }
  }

  lemma {:induction false} ScanPagesSnoc(pages: seq<Page>, p: Page, read: ObjectReader)
    ensures ScanPages(pages + [p], read) == Then(ScanPages(pages, read), ScanPage(p, read))
  {
    if pages == [] {
      assert pages + [p] == [p] && [p][1..] == [];
      match ScanPage(p, read)
      case None =>
      case Some(xs) => assert xs + [] == [] + xs;
    } else {
      assert (pages + [p])[1..] == pages[1..] + [p];
      ScanPagesSnoc(pages[1..], p, read);
      match ScanPage(pages[0], read)
      case None =>
      case Some(first) =>
        match ScanPages(pages[1..], read)
        case None =>
        case Some(rest) =>
          match ScanPage(p, read)
          case None =>
          case Some(more) => assert first + (rest + more) == (first + rest) + more;
    }
  }

  /** Every article the S3 fetch returns is unprocessed. */
  lemma {:induction false} S3BacklogUnprocessed(pages: seq<Page>, read: ObjectReader)
    ensures forall d :: d in S3Backlog(pages, read) ==> UnprocessedInS3(d)
  {
    ScanPagesUnprocessed(pages, read);
  }

  lemma {:induction false} ScanKeysUnprocessed(keys: seq<string>, read: ObjectReader)
    ensures ScanKeys(keys, read).Some? ==> forall d :: d in ScanKeys(keys, read).value ==> UnprocessedInS3(d)
  {
    if keys != [] {
      ScanKeysUnprocessed(keys[1..], read);
    }
  }

  lemma {:induction false} ScanPagesUnprocessed(pages: seq<Page>, read: ObjectReader)
    ensures ScanPages(pages, read).Some? ==> forall d :: d in ScanPages(pages, read).value ==> UnprocessedInS3(d)
  {
    if pages != [] {
      ScanPagesUnprocessed(pages[1..], read);
      if pages[0].Listed? && pages[0].keys.Some? {
        ScanKeysUnprocessed(pages[0].keys.value, read);
      }
    }
  }

  /** One page that cannot be listed empties the whole S3 backlog, even
      when the other pages hold unprocessed articles: a fetch error looks
      like an empty backlog. */
  lemma ListFailureEmptiesBacklog(pages: seq<Page>, read: ObjectReader, k: nat)
    requires k < |pages| && pages[k].ListFailed?
    ensures S3Backlog(pages, read) == []
  {
    ScanPagesSnoc(pages[..k], pages[k], read);
    PrefixSnoc(pages, k);
    ScanPagesPrefixFails(pages, k + 1, read);
  }

  /** An unprocessed article stored under a listed key is returned, unless
      some read in the scan raised and the whole backlog came back empty. */
  lemma {:induction false} ScanKeysComplete(keys: seq<string>, read: ObjectReader, i: nat)
    requires i < |keys|
    requires LoadArticle(keys[i], read).Some? && UnprocessedInS3(LoadArticle(keys[i], read).value)
    ensures ScanKeys(keys, read).Some? ==> LoadArticle(keys[i], read).value in ScanKeys(keys, read).value
  {
    if i > 0 {
      assert keys[1..][i - 1] == keys[i];
      ScanKeysComplete(keys[1..], read, i - 1);
    }
  }

  /** An unprocessed article stored under a key of any listed page is in
      the S3 backlog, unless some listing or read raised. */
  lemma {:induction false} S3BacklogComplete(pages: seq<Page>, read: ObjectReader, j: nat, i: nat)
    requires j < |pages| && pages[j].Listed? && pages[j].keys.Some? && i < |pages[j].keys.value|
    requires var key := pages[j].keys.value[i];
             LoadArticle(key, read).Some? && UnprocessedInS3(LoadArticle(key, read).value)
    ensures ScanPages(pages, read).Some? ==>
              LoadArticle(pages[j].keys.value[i], read).value in S3Backlog(pages, read)
  {
    if ScanPages(pages, read).Some? {
      if j == 0 {
        ScanKeysComplete(pages[0].keys.value, read, i);
      } else {
        assert pages[1..][j - 1] == pages[j];
        S3BacklogComplete(pages[1..], read, j - 1, i);
      }
    }
  }

  /** `get_unprocessed_articles_from_s3`: the loop over listing pages,
      collecting each unprocessed article as a fresh dict; any exception
      returns the empty list. */
  method GetUnprocessedFromS3(pages: seq<Page>, read: ObjectReader) returns (articles: seq<ArticleDict>)
    ensures FieldsOf(articles) == S3Backlog(pages, read)
    ensures forall a :: a in articles ==> fresh(a)
    ensures Distinct(articles)
  {
    var found: seq<ArticleDict> := [];
    var p := 0;
    assert pages[..0] == [];
    while p < |pages|
      invariant 0 <= p <= |pages|
      invariant ScanPages(pages[..p], read) == Some(FieldsOf(found))
      invariant forall a :: a in found ==> fresh(a)
      invariant Distinct(found)
    {
      ScanPagesSnoc(pages[..p], pages[p], read);
      PrefixSnoc(pages, p);
      if pages[p].ListFailed? {
        ScanPagesPrefixFails(pages, p + 1, read);
        return [];
      }
      if pages[p].keys.Some? {
        var next := CollectPage(pages[p].keys.value, read, found);
        if next.None? {
          ScanPagesPrefixFails(pages, p + 1, read);
          return [];
        }
        found := next.value;
      } else {
        assert FieldsOf(found) + [] == FieldsOf(found);
      }
      p := p + 1;
    }
    assert pages[..p] == pages;
    articles := found;
  }

  /** The inner loop, over the objects of one page: None when reading one
      of them raises, otherwise `found` with a fresh dict appended for
      each unprocessed article. */
  method CollectPage(keys: seq<string>, read: ObjectReader, found: seq<ArticleDict>)
    returns (r: Option<seq<ArticleDict>>)
    requires Distinct(found)
    ensures r.None? <==> ScanKeys(keys, read).None?
    ensures r.Some? ==> FieldsOf(r.value) == FieldsOf(found) + ScanKeys(keys, read).value
    ensures r.Some? ==> Distinct(r.value) && forall a :: a in r.value ==> a in found || fresh(a)
  {
    var out := found;
    var o := 0;
    assert keys[..0] == [] && FieldsOf(out) == FieldsOf(found) + [];
    while o < |keys|
      invariant 0 <= o <= |keys|
      invariant ScanKeys(keys[..o], read).Some?
      invariant FieldsOf(out) == FieldsOf(found) + ScanKeys(keys[..o], read).value
      invariant Distinct(out) && forall a :: a in out ==> a in found || fresh(a)
    {
      ScanKeysSnoc(keys[..o], keys[o], read);
      PrefixSnoc(keys, o);
      var loaded := read(keys[o]);
      if !loaded.Ok? || !loaded.value.JObj? {
        ScanKeysPrefixFails(keys, o + 1, read);
        return None;
      }
      var article := loaded.value.members;
      if !Truthy(GetOr(article, "processed", JBool(false))) {
        var created := new ArticleDict(article);
        Assoc(FieldsOf(found), ScanKeys(keys[..o], read).value, [article]);
        out := out + [created];
      } else {
        assert ScanKeys(keys[..o], read).value + [] == ScanKeys(keys[..o], read).value;
      }
      o := o + 1;
    }
    assert keys[..o] == keys;
    r := Some(out);
  }

  lemma {:induction false} ScanKeysPrefixFails(keys: seq<string>, k: nat, read: ObjectReader)
    requires k <= |keys|
    requires ScanKeys(keys[..k], read).None?
    ensures ScanKeys(keys, read).None?
    decreases |keys| - k
  {
    if k < |keys| {
      ScanKeysSnoc(keys[..k], keys[k], read);
      assert keys[..k + 1] == keys[..k] + [keys[k]];
      ScanKeysPrefixFails(keys, k + 1, read);
    } else {
      assert keys[..k] == keys;
    }
  }

  lemma {:induction false} ScanPagesPrefixFails(pages: seq<Page>, k: nat, read: ObjectReader)
    requires k <= |pages|
    requires ScanPages(pages[..k], read).None?
    ensures ScanPages(pages, read).None?
    decreases |pages| - k
  {
    if k < |pages| {
      ScanPagesSnoc(pages[..k], pages[k], read);
      assert pages[..k + 1] == pages[..k] + [pages[k]];
      ScanPagesPrefixFails(pages, k + 1, read);
    } else {
      assert pages[..k] == pages;
    }
  }

  // ---- Reading the backlog from DynamoDB ----

  /** The scan's filter `processed = :processed` with `:processed` False:
      only an attribute holding the boolean false matches, so an item
      without the attribute is not returned. */
  predicate UnprocessedInDynamo(item: Dict) {
    Lookup(item, "processed") == Some(JBool(false))
  }

  /** `get_unprocessed_articles_from_dynamodb`: the items of one scan
      (`scanned` holds the items the scan reads, or the text of the
      exception it raised), filtered by the flag; a failure gives []. */
  function DynamoBacklog(scanned: Result<seq<Dict>>): (r: seq<Dict>)
    ensures scanned.Err? ==> r == []
    ensures forall d :: d in r ==> UnprocessedInDynamo(d) && UnprocessedInS3(d)
    ensures scanned.Ok? ==> forall d :: d in scanned.value && UnprocessedInDynamo(d) ==> d in r
  {
    match scanned
    case Err(_) => []
    case Ok(items) => FilterDynamo(items)
  }

  function FilterDynamo(items: seq<Dict>): (r: seq<Dict>)
    ensures forall d :: d in r <==> d in items && UnprocessedInDynamo(d)
  {
    if items == [] then []
    else (if UnprocessedInDynamo(items[0]) then [items[0]] else []) + FilterDynamo(items[1..])
  }

  /** Each scanned item, kept when it matches the filter. */
  function DynamoPicks(items: seq<Dict>): (r: seq<Option<Dict>>)
    ensures |r| == |items|
    ensures forall i :: 0 <= i < |items| ==> r[i] == if UnprocessedInDynamo(items[i]) then Some(items[i]) else None
  {
    seq(|items|, i requires 0 <= i < |items| => if UnprocessedInDynamo(items[i]) then Some(items[i]) else None)
  }

  lemma {:induction false} FilterDynamoKept(items: seq<Dict>)
    ensures FilterDynamo(items) == Kept(DynamoPicks(items))
  {
    if items != [] {
      FilterDynamoKept(items[1..]);
      assert DynamoPicks(items)[1..] == DynamoPicks(items[1..]);
    }
  }

  /** The scan's matching items come back in scan order, each once: `idx`
      lists their positions in increasing order, and every matching item's
      position is among them. */
  lemma DynamoBacklogOrder(items: seq<Dict>) returns (idx: seq<nat>)
    ensures |idx| == |DynamoBacklog(Ok(items))|
    ensures forall k :: 0 <= k < |idx| ==> idx[k] < |items| && items[idx[k]] == DynamoBacklog(Ok(items))[k]
    ensures forall k, l :: 0 <= k < l < |idx| ==> idx[k] < idx[l]
    ensures forall i :: 0 <= i < |items| && UnprocessedInDynamo(items[i]) ==> i in idx
  {
    FilterDynamoKept(items);
    var picks := DynamoPicks(items);
    idx := KeptSelects(picks);
    forall i | 0 <= i < |items| && UnprocessedInDynamo(items[i])
      ensures i in idx
    {
      assert picks[i].Some?;
    }
  }

  /** The scan's matching items as the list of dicts the function
      returns, each a dict of its own. */
  method GetUnprocessedFromDynamo(scanned: Result<seq<Dict>>) returns (articles: seq<ArticleDict>)
    ensures FieldsOf(articles) == DynamoBacklog(scanned)
    ensures forall a :: a in articles ==> fresh(a)
    ensures Distinct(articles)
  {
    var items := DynamoBacklog(scanned);
    articles := [];
    for i := 0 to |items|
      invariant FieldsOf(articles) == items[..i]
      invariant forall a :: a in articles ==> fresh(a)
      invariant Distinct(articles)
    {
      var item := new ArticleDict(items[i]);
      articles := articles + [item];
      assert items[..i + 1] == items[..i] + [items[i]];
    }
    assert items[..|items|] == items;
  }

  // ---- Writing a summary back ----

  /** `f"articles/{source}/{article_id}.json"`, or None when the dict lacks
      "id" or "source" and the subscript raises KeyError. */
  function S3Key(d: Dict): Option<string> {
    match (Lookup(d, "id"), Lookup(d, "source"))
    case (Some(id), Some(source)) => Some("articles/" + Show(source) + "/" + Show(id) + ".json")
    case _ => None
  }

  /** The dict after `update_article_in_s3` has set its three fields. */
  function MarkProcessed(d: Dict, summary: Json, now: string): (r: Dict)
    ensures Lookup(r, "summary") == Some(summary)
    ensures Lookup(r, "processed") == Some(JBool(true))
    ensures Lookup(r, "processed_at") == Some(JStr(now))
    ensures forall k :: k !in {"summary", "processed", "processed_at"} ==> Lookup(r, k) == Lookup(d, k)
  {
    Put(Put(Put(d, "summary", summary), "processed", JBool(true)), "processed_at", JStr(now))
  }

  /** `put_object(Key, Body=json.dumps(article))` */
  type ObjectWriter = (string, Dict) -> bool

  /** A written-back article is no longer part of the S3 backlog. */
  lemma WrittenBackLeavesBacklog(d: Dict, summary: Json, now: string)
    ensures !UnprocessedInS3(MarkProcessed(d, summary, now))
    ensures !UnprocessedInDynamo(MarkProcessed(d, summary, now))
  {
  }

  /** `update_article_in_s3`: with "id" and "source" present, the dict is
      changed in place before the write is tried, so it keeps the change
      even when the write fails; without them nothing changes and the
      result is False. */
  method UpdateArticleInS3(article: ArticleDict, summary: Json, now: string, put: ObjectWriter)
    returns (ok: bool)
    modifies article
    ensures S3Key(old(article.fields)).None? ==> !ok && article.fields == old(article.fields)
    ensures S3Key(old(article.fields)).Some? ==>
              && article.fields == MarkProcessed(old(article.fields), summary, now)
              && ok == put(S3Key(old(article.fields)).value, article.fields)
  {
    var key := S3Key(article.fields);
    if key.None? {
      return false;
    }
    article.fields := Put(article.fields, "summary", summary);
    article.fields := Put(article.fields, "processed", JBool(true));
    article.fields := Put(article.fields, "processed_at", JStr(now));
    ok := put(key.value, article.fields);
  }

  /** `update_item` keyed by the article's id (None when it has none),
      setting summary, processed and processed_at. */
  type ItemUpdater = (Json, Json, string) -> bool
}
