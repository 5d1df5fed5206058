/** The notification senders of the news processor: the plain-text digest,
    `send_sns_notification` and `send_email_notification` with its fallback
    to SNS. SES `send_email` and SNS `publish` are parameters; the date
    `strftime('%Y-%m-%d')` gives is the parameter `date`. */
module Notify {
  import opened PyValues

  /** An email as handed to SES; its HTML body is not part of this model. */
  datatype Email = Email(address: string, subject: string, text: string)

  datatype SnsMessage = SnsMessage(topic: string, subject: string, message: string)

  /** A delivery the run asked an AWS service for, in order. */
  datatype Attempt = SesAttempt(email: Email) | SnsAttempt(sns: SnsMessage)

  /** How SES `send_email` ends: sent, a botocore `ClientError`, or any
      other exception. */
  datatype SesOutcome = Sent | ClientError(message: string) | OtherError(message: string)

  type Mailer = Email -> SesOutcome
  type Publisher = SnsMessage -> bool

  /** An environment variable that is set and not empty. */
  predicate Configured(setting: Option<string>) {
    setting.Some? && setting.value != ""
  }

  function Subject(date: string): string {
    "News Summary - " + date
  }

  function DigestHeader(date: string): string {
    "News Summaries for " + date + "\n\n"
  }

  /** The four lines one article adds, with the defaults for missing keys. */
  function Entry(article: Dict): string {
    Show(GetOr(article, "title", JStr("No Title"))) + "\n" +
    "Source: " + Show(GetOr(article, "source", JStr("Unknown Source"))) + "\n" +
    Show(GetOr(article, "summary", JStr("No summary available"))) + "\n" +
    "Link: " + Show(GetOr(article, "link", JStr("#"))) + "\n\n"
  }

  function Entries(articles: seq<Dict>): string {
    if articles == [] then "" else Entry(articles[0]) + Entries(articles[1..])
  }

  /** The text the senders build: the email's text body and the SNS message. */
  function Digest(date: string, articles: seq<Dict>): string {
    DigestHeader(date) + Entries(articles)
  }

  /** The entries of two runs of articles, one after the other. */
  lemma {:induction false} EntriesAppend(xs: seq<Dict>, ys: seq<Dict>)
    ensures Entries(xs + ys) == Entries(xs) + Entries(ys)
  {
    if xs == [] {
      assert xs + ys == ys;
    } else {
      assert (xs + ys)[1..] == xs[1..] + ys;
      EntriesAppend(xs[1..], ys);
    }
  }

  /** The digest of a run begins with the dated header and then holds the
      entry of each article in order: the i-th entry starts right after
      the entries of the articles before it. */
  lemma DigestLayout(date: string, articles: seq<Dict>, i: nat)
    requires i < |articles|
    ensures Digest(date, articles) ==
              DigestHeader(date) + (Entries(articles[..i]) + Entry(articles[i]) + Entries(articles[i + 1..]))
  {
    var before, after := articles[..i], articles[i + 1..];
    Split(articles, i);
    EntriesAppend(before + [articles[i]], after);
    EntriesAppend(before, [articles[i]]);
    assert Entries([articles[i]]) == Entry(articles[i]) by {
      assert [articles[i]][1..] == [];
    }
  }

  /** The entry of an article whose four fields are strings. */
  lemma EntryText(article: Dict, title: string, source: string, summary: string, link: string)
    requires Lookup(article, "title") == Some(JStr(title))
    requires Lookup(article, "source") == Some(JStr(source))
    requires Lookup(article, "summary") == Some(JStr(summary))
    requires Lookup(article, "link") == Some(JStr(link))
    ensures Entry(article) ==
              title + "\n" + "Source: " + source + "\n" + summary + "\n" + "Link: " + link + "\n\n"
  {
  }

  /** An article without any of the four keys gets all four defaults. */
  lemma EntryDefaults(article: Dict)
    requires "title" !in Keys(article) && "source" !in Keys(article)
    requires "summary" !in Keys(article) && "link" !in Keys(article)
    ensures Entry(article) ==
              "No Title" + "\n" + "Source: " + "Unknown Source" + "\n" +
              "No summary available" + "\n" + "Link: " + "#" + "\n\n"
  {
    assert GetOr(article, "title", JStr("No Title")) == JStr("No Title");
    assert GetOr(article, "source", JStr("Unknown Source")) == JStr("Unknown Source");
    assert GetOr(article, "summary", JStr("No summary available")) == JStr("No summary available");
    assert GetOr(article, "link", JStr("#")) == JStr("#");
  }

  lemma DigestStep(date: string, articles: seq<Dict>, i: nat)
    requires i < |articles|
    ensures Digest(date, articles[..i + 1]) == Digest(date, articles[..i]) + Entry(articles[i])
  {
    assert articles[..i + 1] == articles[..i] + [articles[i]];
    EntriesAppend(articles[..i], [articles[i]]);
    assert Entries([articles[i]]) == Entry(articles[i]) by {
      assert [articles[i]][1..] == [];
    }
    calc {
      Digest(date, articles[..i + 1]);
      DigestHeader(date) + (Entries(articles[..i]) + Entry(articles[i]));
      (DigestHeader(date) + Entries(articles[..i])) + Entry(articles[i]);
    }
  }

  /** Before any article, the digest is its header. */
  lemma DigestOfNone(date: string, articles: seq<Dict>)
    ensures Digest(date, articles[..0]) == DigestHeader(date)
  {
    assert articles[..0] == [];
    assert DigestHeader(date) + "" == DigestHeader(date);
  }

  lemma DigestOfAll(date: string, articles: seq<Dict>)
    ensures Digest(date, articles[..|articles|]) == Digest(date, articles)
  {
    assert articles[..|articles|] == articles;
  }

  /** The loop that grows the digest with `+=`, one entry per article. */
  method RenderDigest(date: string, articles: seq<Dict>) returns (text: string)
    ensures text == Digest(date, articles)
  {
    text := DigestHeader(date);
    var i := 0;
    DigestOfNone(date, articles);
    while i < |articles|
      invariant 0 <= i <= |articles|
      invariant text == Digest(date, articles[..i])
    {
      text := AppendEntry(text, articles[i]);
      DigestStep(date, articles, i);
      i := i + 1;
    }
    DigestOfAll(date, articles);
  }

  /** One turn of that loop: the four `+=` of an article's lines. */
  method AppendEntry(text: string, article: Dict) returns (r: string)
    ensures r == text + Entry(article)
  {
    var title := Show(GetOr(article, "title", JStr("No Title")));
    var source := Show(GetOr(article, "source", JStr("Unknown Source")));
    var summary := Show(GetOr(article, "summary", JStr("No summary available")));
    var link := Show(GetOr(article, "link", JStr("#")));
    var line1, line2 := title + "\n", "Source: " + source + "\n";
    var line3, line4 := summary + "\n", "Link: " + link + "\n\n";
    r := text + line1;
    r := r + line2;
    Assoc(text, line1, line2);
    r := r + line3;
    Assoc(text, line1 + line2, line3);
    r := r + line4;
    Assoc(text, line1 + line2 + line3, line4);
    EntryLines(article, line1, line2, line3, line4);
  }

  /** An entry is its four lines. */
  lemma EntryLines(article: Dict, line1: string, line2: string, line3: string, line4: string)
    requires line1 == Show(GetOr(article, "title", JStr("No Title"))) + "\n"
    requires line2 == "Source: " + Show(GetOr(article, "source", JStr("Unknown Source"))) + "\n"
    requires line3 == Show(GetOr(article, "summary", JStr("No summary available"))) + "\n"
    requires line4 == "Link: " + Show(GetOr(article, "link", JStr("#"))) + "\n\n"
    ensures Entry(article) == line1 + line2 + line3 + line4
  {
    var t, so := Show(GetOr(article, "title", JStr("No Title"))), Show(GetOr(article, "source", JStr("Unknown Source")));
    var su, l := Show(GetOr(article, "summary", JStr("No summary available"))), Show(GetOr(article, "link", JStr("#")));
    Assoc(t + "\n", "Source: " + so, "\n");
    Assoc(t + "\n", "Source: ", so);
    Assoc(line1 + line2, su, "\n");
    Assoc(line1 + line2 + line3, "Link: " + l, "\n\n");
    Assoc(line1 + line2 + line3, "Link: ", l);
  }

  /** `send_sns_notification`: without a topic nothing is published and
      the result is False; otherwise one publish of the digest, whose
      success is the result. */
  method SendSnsNotification(topic: Option<string>, date: string, articles: seq<Dict>, publish: Publisher)
    returns (ok: bool, attempts: seq<Attempt>)
    ensures !Configured(topic) ==> !ok && attempts == []
    ensures Configured(topic) ==>
              && attempts == [SnsAttempt(SnsMessage(topic.value, Subject(date), Digest(date, articles)))]
              && ok == publish(attempts[0].sns)
  {
    if !Configured(topic) {
      return false, [];
    }
    var message := RenderDigest(date, articles);
    var sns := SnsMessage(topic.value, Subject(date), message);
    attempts := [SnsAttempt(sns)];
    ok := publish(sns);
  }

  /** The deliveries `send_email_notification` asks for. */
  function EmailAttempts(email: Option<string>, topic: Option<string>, date: string,
                         articles: seq<Dict>, send: Mailer): seq<Attempt>
  {
    if !Configured(email) then []
    else
      var mail := Email(email.value, Subject(date), Digest(date, articles));
      [SesAttempt(mail)] +
      (if send(mail).ClientError? && Configured(topic)
       then [SnsAttempt(SnsMessage(topic.value, Subject(date), Digest(date, articles)))]
       else [])
  }

  /** `send_email_notification`: False without an address; otherwise one
      SES send of the digest, True exactly when it is sent. A ClientError
      falls back to one SNS publish when a topic is set, and the result is
      False even when that publish succeeds; any other exception has no
      fallback. */
  method SendEmailNotification(email: Option<string>, topic: Option<string>, date: string,
                               articles: seq<Dict>, send: Mailer, publish: Publisher)
    returns (ok: bool, attempts: seq<Attempt>)
    ensures attempts == EmailAttempts(email, topic, date, articles, send)
    ensures ok <==> Configured(email) && send(Email(email.value, Subject(date), Digest(date, articles))).Sent?
  {
    if !Configured(email) {
      return false, [];
    }
    var text := RenderDigest(date, articles);
    var mail := Email(email.value, Subject(date), text);
    attempts := [SesAttempt(mail)];
    match send(mail)
    case Sent =>
      ok := true;
    case ClientError(_) =>
      if Configured(topic) {
        var _, more := SendSnsNotification(topic, date, articles, publish);
        attempts := attempts + more;
      }
      ok := false;
    case OtherError(_) =>
      ok := false;
  }

  /** The fallback rules: SES is tried first and at most once; SNS is
      tried at most once, only after a ClientError and only with a topic;
      with no address nothing is sent at all. */
  lemma EmailFallback(email: Option<string>, topic: Option<string>, date: string,
                      articles: seq<Dict>, send: Mailer)
    ensures var attempts := EmailAttempts(email, topic, date, articles, send);
            && (attempts == [] <==> !Configured(email))
            && |attempts| <= 2
            && (attempts != [] ==> attempts[0].SesAttempt? && attempts[0].email.text == Digest(date, articles))
            && (|attempts| == 2 <==>
                  Configured(email) && Configured(topic) &&
                  send(attempts[0].email).ClientError?)
            && (|attempts| == 2 ==>
                  attempts[1].SnsAttempt? && attempts[1].sns.message == attempts[0].email.text)
  {
  }
}
