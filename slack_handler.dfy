/** The decode-and-fallback part of the SNS-to-Slack `lambda_handler`:
    the SNS message text is decoded as JSON (twice when the first decode
    gives a string), formatted, and on any exception replaced by a plain
    two-block message. `json.loads` is the parameter `parse`, which gives
    None where it raises. */
module SlackHandler {
  import opened PyValues
  import opened SlackFormat

  /** `json.loads(message)`, and `json.loads` again when that gives a str. */
  function Decode(message: string, parse: string -> Option<Json>): (r: Option<Json>)
    ensures parse(message).Some? && !parse(message).value.JStr? ==> r == parse(message)
    ensures parse(message).Some? && parse(message).value.JStr? ==> r == parse(parse(message).value.s)
    ensures parse(message).None? ==> r.None?
  {
    match parse(message)
    case None => None
    case Some(JStr(inner)) => parse(inner)
    case Some(v) => Some(v)
  }

  /** The message sent when decoding or formatting raises: the header and
      the raw SNS message text as one section. */
  function Fallback(message: string, subject: Option<string>): (r: seq<Block>)
    ensures |r| == 2
    ensures r[0] == Header(HeaderText(subject))
    ensures r[1] == Section(JStr(message))
  {
    [Header(HeaderText(subject)), Section(JStr(message))]
  }

  /** The blocks the handler posts to Slack for one SNS record. */
  method Handle(message: string, subject: Option<string>, parse: string -> Option<Json>)
    returns (blocks: seq<Block>)
    ensures |blocks| >= 1 && blocks[0] == Header(HeaderText(subject))
    ensures Decode(message, parse).None? ==> blocks == Fallback(message, subject)
    ensures Decode(message, parse).Some? ==>
              blocks == match FormatSpec(Decode(message, parse).value, subject)
                        case Some(formatted) => formatted
                        case None => Fallback(message, subject)
  {
    var data := parse(message);
    if data.Some? && data.value.JStr? {
      data := parse(data.value.s);
    }
    if data.None? {
      return Fallback(message, subject);
    }
    var formatted := FormatMessage(data.value, subject);
    if formatted.None? {
      return Fallback(message, subject);
    }
    blocks := formatted.value;
  }

  /** A message whose decoded value is a JSON string holding an article
      list is formatted from the inner list: the double decode. */
  lemma DoubleDecodedArticles(message: string, inner: string, articles: seq<Json>,
                              subject: Option<string>, parse: string -> Option<Json>)
    requires parse(message) == Some(JStr(inner))
    requires parse(inner) == Some(JList(articles))
    requires forall i :: 0 <= i < |articles| ==> ArticleBlocks(articles[i]).Some?
    ensures FormatSpec(Decode(message, parse).value, subject).Some?
    ensures DividerCount(FormatSpec(Decode(message, parse).value, subject).value) == |articles|
  {
    ArticlesBlocksShape(articles);
    var bs := ArticlesBlocks(articles).value;
    DividerCountAppend([Header(HeaderText(subject))], bs);
    assert DividerCount([Header(HeaderText(subject))]) == 0 by {
      assert [Header(HeaderText(subject))][1..] == [];
    }
  }
}
