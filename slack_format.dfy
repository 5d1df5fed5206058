/** `format_message` of the SNS-to-Slack Lambda: turns a decoded SNS message
    into the list of Slack Block Kit blocks that is posted to the webhook. */
module SlackFormat {
  import opened PyValues

  const DefaultHeader := "AWS News Summary"
  /** Slack rejects longer section texts; summaries are cut to this length. */
  const SummaryLimit := 2900
  const Ellipsis := "..."

  /** One Slack block. Header texts are `plain_text`, section texts
      `mrkdwn`; a section's text is whatever Python value the code put
      there (a long list or dict summary stays a list or dict).
      `DumpSection(v)` is a section whose text is `json.dumps(v, indent=2)`. */
  datatype Block =
    | Header(title: string)
    | Divider
    | Section(text: Json)
    | DumpSection(value: Json)

  /** `subject or "AWS News Summary"`: SNS gives the subject as a string or null. */
  function HeaderText(subject: Option<string>): (r: string)
    ensures r != ""
    ensures subject.Some? && subject.value != "" ==> r == subject.value
    ensures subject.None? || subject.value == "" ==> r == DefaultHeader
  {
    if subject.Some? && subject.value != "" then subject.value else DefaultHeader
  }

  /** `link and link != '#'` */
  predicate HasLink(link: Json) {
    Truthy(link) && link != JStr("#")
  }

  function TitleText(title: Json, source: Json): string {
    "*" + Show(title) + "*\n_Source: " + Show(source) + "_"
  }

  function LinkText(link: Json): string {
    "<" + Show(link) + "|Read Full Announcement>"
  }

  /** The summary as it is placed in its section: `len(summary) > 2900`
      selects `summary[:2900] + "..."`; None when that raises (no `len`,
      or a list or dict too long to be sliced and concatenated with a str). */
  function TruncateSummary(summary: Json): (r: Option<Json>)
    ensures r.Some? <==> (summary.JStr? || (Len(summary).Ok? && Len(summary).value <= SummaryLimit))
    ensures summary.JStr? && |summary.s| <= SummaryLimit ==> r == Some(summary)
    ensures summary.JStr? && |summary.s| > SummaryLimit ==>
              r.Some? && r.value.JStr? && |r.value.s| == SummaryLimit + |Ellipsis| &&
              r.value.s[..SummaryLimit] == summary.s[..SummaryLimit] &&
              r.value.s[SummaryLimit..] == Ellipsis
    ensures !summary.JStr? && r.Some? ==> r.value == summary
  {
    match Len(summary)
    case Err(_) => None
    case Ok(n) =>
      if n <= SummaryLimit then Some(summary)
      else if summary.JStr? then Some(JStr(summary.s[..SummaryLimit] + Ellipsis))
      else None
  }

  /** The blocks one article adds, or None when handling it raises. */
  function ArticleBlocks(article: Json): Option<seq<Block>> {
    if !article.JObj? then None
    else
      var ms := article.members;
      var title := GetOr(ms, "title", JStr("No Title"));
      var source := GetOr(ms, "source", JStr("Unknown Source"));
      var summary := GetOr(ms, "summary", JStr("No summary available"));
      var link := GetOr(ms, "link", JStr("#"));
      match TruncateSummary(summary)
      case None => None
      case Some(text) =>
        Some([Divider, Section(JStr(TitleText(title, source))), Section(text)] +
             (if HasLink(link) then [Section(JStr(LinkText(link)))] else []))
  }

  /** An article renders exactly when it is a dict whose summary can be
      cut; it then gives a divider, the bold title with its source, the
      summary, and the link block only for a real link. */
  lemma ArticleLayout(article: Json)
    ensures ArticleBlocks(article).Some? <==> (article.JObj? &&
              TruncateSummary(GetOr(article.members, "summary", JStr("No summary available"))).Some?)
    ensures ArticleBlocks(article).Some? ==>
              var r := ArticleBlocks(article).value;
              var ms := article.members;
              var link := GetOr(ms, "link", JStr("#"));
              && |r| == (if HasLink(link) then 4 else 3)
              && r[0] == Divider
              && r[1] == Section(JStr(TitleText(GetOr(ms, "title", JStr("No Title")),
                                                GetOr(ms, "source", JStr("Unknown Source")))))
              && r[2] == Section(TruncateSummary(GetOr(ms, "summary", JStr("No summary available"))).value)
              && (HasLink(link) ==> r[3] == Section(JStr(LinkText(link))))
  {
  }

  /** The blocks of a run of items under a per-item rendering, in order,
      or None as soon as one item fails. */
  function RenderAll<A>(f: A -> Option<seq<Block>>, xs: seq<A>): Option<seq<Block>> {
    if xs == [] then Some([])
    else
      match f(xs[0])
      case None => None
      case Some(first) =>
        match RenderAll(f, xs[1..])
        case None => None
        case Some(rest) => Some(first + rest)
  }

  /** The blocks of all articles in order, or None if any of them raises. */
  function ArticlesBlocks(articles: seq<Json>): Option<seq<Block>> {
    RenderAll(ArticleBlocks, articles)
  }

  /** What `for article in articles` iterates over: a list's items, a
      string's characters, a dict's keys; None when the value is not iterable. */
  function Iterate(j: Json): (r: Option<seq<Json>>)
    ensures r.Some? <==> (j.JList? || j.JStr? || j.JObj?)
    ensures j.JList? ==> r == Some(j.items)
    ensures j.JStr? ==> |r.value| == |j.s| && forall i :: 0 <= i < |j.s| ==> r.value[i] == JStr([j.s[i]])
    ensures j.JObj? ==> |r.value| == |j.members| &&
                        forall i :: 0 <= i < |j.members| ==> r.value[i] == JStr(Keys(j.members)[i])
  {
    match j
    case JList(xs) => Some(xs)
    case JStr(s) => Some(seq(|s|, i requires 0 <= i < |s| => JStr([s[i]])))
    case JObj(ms) => Some(seq(|ms|, i requires 0 <= i < |ms| => JStr(ms[i].0)))
    case _ => None
  }

  /** The articles of an article-shaped message: a list, or a dict with an
      "articles" key. None for any other shape. */
  function ArticlesOf(data: Json): Option<Json> {
    if data.JList? then Some(data)
    else if data.JObj? && Lookup(data.members, "articles").Some? then Lookup(data.members, "articles")
    else None
  }

  /** The blocks `format_message(data, subject)` returns, or None when it raises. */
  function FormatSpec(data: Json, subject: Option<string>): (r: Option<seq<Block>>)
    ensures r.Some? ==> |r.value| >= 1 && r.value[0] == Header(HeaderText(subject))
    ensures ArticlesOf(data).None? ==> r == Some([Header(HeaderText(subject)), DumpSection(data)])
  {
    var header := Header(HeaderText(subject));
    match ArticlesOf(data)
    case None => Some([header, DumpSection(data)])
    case Some(articles) =>
      match Iterate(articles)
      case None => None
      case Some(items) =>
        match ArticlesBlocks(items)
        case None => None
        case Some(bs) => Some([header] + bs)
  }

  /** Appending one article to the list appends its blocks. */
  lemma {:induction false} ArticlesBlocksSnoc(articles: seq<Json>, a: Json)
    ensures ArticlesBlocks(articles + [a]) ==
              match ArticlesBlocks(articles)
              case None => None
              case Some(bs) =>
                match ArticleBlocks(a)
                case None => None
                case Some(more) => Some(bs + more)
  {
    if articles == [] {
      assert articles + [a] == [a] && [a][1..] == [];
      match ArticleBlocks(a)
      case None =>
      case Some(more) => assert [] + more == more + [];
    } else {
      TailSnoc(articles, a);
      ArticlesBlocksSnoc(articles[1..], a);
      match ArticlesBlocks(articles[1..])
      case None =>
      case Some(rest) =>
        match ArticleBlocks(a)
        case None =>
        case Some(more) =>
          if ArticleBlocks(articles[0]).Some? {
            Assoc(ArticleBlocks(articles[0]).value, rest, more);
          }
    }
  }

  /** `format_message`: the header, then either the raw dump of the message
      or, for each article in order, its divider, title, summary and link
      blocks. None stands for the exception the handler catches. */
  method FormatMessage(data: Json, subject: Option<string>) returns (r: Option<seq<Block>>)
    ensures r == FormatSpec(data, subject)
  {
    var blocks := [Header(HeaderText(subject))];
    var articles: seq<Json>;
    if data.JList? {
      articles := data.items;
    } else if data.JObj? && Lookup(data.members, "articles").Some? {
      var iterated := Iterate(Lookup(data.members, "articles").value);
      if iterated.None? {
        return None;
      }
      articles := iterated.value;
    } else {
      blocks := blocks + [DumpSection(data)];
      assert blocks == [Header(HeaderText(subject)), DumpSection(data)];
      return Some(blocks);
    }
    r := AppendArticles(blocks, articles);
  }

  /** The article loop: every article's blocks appended in order, or None
      as soon as one article raises. */
  method AppendArticles(blocks: seq<Block>, articles: seq<Json>) returns (r: Option<seq<Block>>)
    ensures r == match ArticlesBlocks(articles)
                 case None => None
                 case Some(more) => Some(blocks + more)
  {
    var out := blocks;
    var i := 0;
    assert articles[..0] == [] && out == blocks + [];
    while i < |articles|
      invariant 0 <= i <= |articles|
      invariant ArticlesBlocks(articles[..i]).Some?
      invariant out == blocks + ArticlesBlocks(articles[..i]).value
    {
      var next := AppendArticle(out, articles[i]);
      if next.None? {
        ArticleFails(articles, i);
        return None;
      }
      ArticlesStep(blocks, articles, i, out);
      out := next.value;
      i := i + 1;
    }
    assert articles[..i] == articles;
    r := Some(out);
  }

  /** The article loop's state after one more article that renders. */
  lemma ArticlesStep(blocks: seq<Block>, articles: seq<Json>, i: nat, out: seq<Block>)
    requires i < |articles|
    requires ArticlesBlocks(articles[..i]).Some? && out == blocks + ArticlesBlocks(articles[..i]).value
    requires ArticleBlocks(articles[i]).Some?
    ensures ArticlesBlocks(articles[..i + 1]).Some?
    ensures out + ArticleBlocks(articles[i]).value == blocks + ArticlesBlocks(articles[..i + 1]).value
  {
    ArticlesBlocksSnoc(articles[..i], articles[i]);
    PrefixSnoc(articles, i);
    Assoc(blocks, ArticlesBlocks(articles[..i]).value, ArticleBlocks(articles[i]).value);
  }

  /** An article that raises makes the whole message raise. */
  lemma ArticleFails(articles: seq<Json>, i: nat)
    requires i < |articles|
    requires ArticlesBlocks(articles[..i]).Some? && ArticleBlocks(articles[i]).None?
    ensures ArticlesBlocks(articles).None?
  {
    ArticlesBlocksSnoc(articles[..i], articles[i]);
    PrefixSnoc(articles, i);
    ArticlesBlocksPrefixFails(articles, i + 1);
  }

  /** Pushing three or four blocks one at a time appends them as a run. */
  lemma ThreeOrFour<T>(b: seq<T>, x: T, y: T, z: T, w: T)
    ensures b + [x] + [y] + [z] == b + ([x, y, z] + [])
    ensures b + [x] + [y] + [z] + [w] == b + ([x, y, z] + [w])
  {
  }

  /** One turn of the article loop: append the article's divider, title
      and source, (cut) summary and, when it has a real link, link block. */
  method AppendArticle(blocks: seq<Block>, article: Json) returns (r: Option<seq<Block>>)
    ensures r == match ArticleBlocks(article)
                 case None => None
                 case Some(more) => Some(blocks + more)
  {
    if !article.JObj? {
      return None;
    }
    var title := GetOr(article.members, "title", JStr("No Title"));
    var source := GetOr(article.members, "source", JStr("Unknown Source"));
    var summary := GetOr(article.members, "summary", JStr("No summary available"));
    var link := GetOr(article.members, "link", JStr("#"));
    var out := blocks + [Divider];
    out := out + [Section(JStr(TitleText(title, source)))];
    var n := Len(summary);
    if n.Err? || (n.value > SummaryLimit && !summary.JStr?) {
      return None;
    }
    if n.value > SummaryLimit {
      summary := JStr(summary.s[..SummaryLimit] + Ellipsis);
    }
    assert TruncateSummary(GetOr(article.members, "summary", JStr("No summary available"))) == Some(summary);
    out := out + [Section(summary)];
    if HasLink(link) {
      out := out + [Section(JStr(LinkText(link)))];
    }
    ThreeOrFour(blocks, Divider, Section(JStr(TitleText(title, source))), Section(summary),
                Section(JStr(LinkText(link))));
    r := Some(out);
  }

  /** Once some prefix of the articles raises, the whole loop raises. */
  lemma {:induction false} ArticlesBlocksPrefixFails(articles: seq<Json>, k: nat)
    requires k <= |articles|
    requires ArticlesBlocks(articles[..k]).None?
    ensures ArticlesBlocks(articles).None?
    decreases |articles| - k
  {
    if k < |articles| {
      var a := articles[k];
      ArticlesBlocksSnoc(articles[..k], a);
      assert articles[..k + 1] == articles[..k] + [a];
      ArticlesBlocksPrefixFails(articles, k + 1);
    } else {
      assert articles[..k] == articles;
    }
  }

  /** The number of divider blocks. */
  function DividerCount(bs: seq<Block>): nat {
    if bs == [] then 0 else (if bs[0] == Divider then 1 else 0) + DividerCount(bs[1..])
  }

  lemma {:induction false} DividerCountAppend(xs: seq<Block>, ys: seq<Block>)
    ensures DividerCount(xs + ys) == DividerCount(xs) + DividerCount(ys)
  {
    if xs != [] {
      assert (xs + ys)[1..] == xs[1..] + ys;
      DividerCountAppend(xs[1..], ys);
    } else {
      assert xs + ys == ys;
    }
  }

  /** The number of articles that carry a real link. */
  function LinkedCount(articles: seq<Json>): nat {
    if articles == [] then 0
    else
      (if articles[0].JObj? && HasLink(GetOr(articles[0].members, "link", JStr("#"))) then 1 else 0)
      + LinkedCount(articles[1..])
  }

  /** Article input succeeds exactly when every article is a dict whose
      summary can be measured and cut; then each article contributes one
      divider, and the output holds three blocks per article plus one per
      real link. */
  lemma {:induction false} ArticlesBlocksShape(articles: seq<Json>)
    ensures ArticlesBlocks(articles).Some? <==>
              forall i :: 0 <= i < |articles| ==> ArticleBlocks(articles[i]).Some?
    ensures ArticlesBlocks(articles).Some? ==>
              && DividerCount(ArticlesBlocks(articles).value) == |articles|
              && |ArticlesBlocks(articles).value| == 3 * |articles| + LinkedCount(articles)
  {
    if articles != [] {
      ArticlesBlocksShape(articles[1..]);
      TailIndex(articles);
      match ArticleBlocks(articles[0])
      case None =>
      case Some(first) =>
        match ArticlesBlocks(articles[1..])
        case None =>
        case Some(rest) =>
          ArticleLayout(articles[0]);
          DividerCountAppend(first, rest);
          ArticleHasOneDivider(articles[0]);
    }
  }

  /** The blocks of one article hold exactly one divider, its first block. */
  lemma ArticleHasOneDivider(article: Json)
    requires ArticleBlocks(article).Some?
    ensures DividerCount(ArticleBlocks(article).value) == 1
  {
    ArticleLayout(article);
    var bs := ArticleBlocks(article).value;
    assert bs == [Divider] + bs[1..];
    NoDividers(bs[1..]);
  }

  lemma {:induction false} NoDividers(bs: seq<Block>)
    requires forall i :: 0 <= i < |bs| ==> bs[i].Section?
    ensures DividerCount(bs) == 0
  {
    if bs != [] {
      NoDividers(bs[1..]);
    }
  }

  /** An article without a "link" key falls back to '#', which adds no link block. */
  lemma MissingLinkAddsNoBlock(article: Json)
    requires article.JObj? && "link" !in Keys(article.members)
    requires ArticleBlocks(article).Some?
    ensures |ArticleBlocks(article).value| == 3
  {
    ArticleLayout(article);
    assert !HasLink(JStr("#"));
  }

  lemma {:induction false} RenderAllAppend<A>(f: A -> Option<seq<Block>>, xs: seq<A>, ys: seq<A>)
    requires RenderAll(f, xs).Some? && RenderAll(f, ys).Some?
    ensures RenderAll(f, xs + ys) == Some(RenderAll(f, xs).value + RenderAll(f, ys).value)
  {
    if xs == [] {
      assert xs + ys == ys;
      assert [] + RenderAll(f, ys).value == RenderAll(f, ys).value;
    } else {
      assert (xs + ys)[1..] == xs[1..] + ys;
      assert (xs + ys)[0] == xs[0];
      RenderAllAppend(f, xs[1..], ys);
      Assoc(f(xs[0]).value, RenderAll(f, xs[1..]).value, RenderAll(f, ys).value);
    }
  }

  lemma RenderAllOne<A>(f: A -> Option<seq<Block>>, x: A)
    requires f(x).Some?
    ensures RenderAll(f, [x]) == f(x)
  {
    assert [x][1..] == [];
    assert f(x).value + [] == f(x).value;
  }

  /** The blocks of two runs of renderable articles, one after the other. */
  lemma ArticlesBlocksAppend(xs: seq<Json>, ys: seq<Json>)
    requires ArticlesBlocks(xs).Some? && ArticlesBlocks(ys).Some?
    ensures ArticlesBlocks(xs + ys) == Some(ArticlesBlocks(xs).value + ArticlesBlocks(ys).value)
  {
    RenderAllAppend(ArticleBlocks, xs, ys);
  }

  /** In a formatted article list, the blocks of article i come right after
      the header and the blocks of the articles before it, and right before
      those of the articles after it. */
  lemma ArticlePlacement(articles: seq<Json>, subject: Option<string>, i: nat)
    requires FormatSpec(JList(articles), subject).Some?
    requires i < |articles|
    ensures ArticlesBlocks(articles[..i]).Some? && ArticleBlocks(articles[i]).Some? &&
            ArticlesBlocks(articles[i + 1..]).Some?
    ensures FormatSpec(JList(articles), subject).value ==
              [Header(HeaderText(subject))] + ArticlesBlocks(articles[..i]).value +
              ArticleBlocks(articles[i]).value + ArticlesBlocks(articles[i + 1..]).value
  {
    var before, after := articles[..i], articles[i + 1..];
    ArticlesBlocksShape(articles);
    ArticlesBlocksShape(before);
    ArticlesBlocksShape(after);
    assert forall k :: 0 <= k < |after| ==> after[k] == articles[i + 1 + k];
    var one := ArticleBlocks(articles[i]).value;
    RenderAllOne(ArticleBlocks, articles[i]);
    Split(articles, i);
    ArticlesBlocksAppend(before, [articles[i]]);
    ArticlesBlocksAppend(before + [articles[i]], after);
    Assoc([Header(HeaderText(subject))], ArticlesBlocks(before).value + one, ArticlesBlocks(after).value);
    Assoc([Header(HeaderText(subject))], ArticlesBlocks(before).value, one);
  }

  /** Articles given as a non-empty string or dict are iterated as strings,
      on which `.get` raises, so the whole message falls back. */
  lemma TextArticlesFail(data: Json, subject: Option<string>)
    requires ArticlesOf(data).Some?
    requires var a := ArticlesOf(data).value; (a.JStr? && a.s != []) || (a.JObj? && a.members != [])
    ensures FormatSpec(data, subject).None?
  {
    var items := Iterate(ArticlesOf(data).value).value;
    assert items[0].JStr?;
    assert ArticleBlocks(items[0]).None?;
  }
}
