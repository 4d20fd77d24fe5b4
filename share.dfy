/**
 * The share links of a conversation: the hashtag string, the title text and the query
 * of each social network's share URL. `camelCase` is a parameter, and a query is the
 * map of its fields before URL serialisation, which is not modelled.
 */
module Share {
  import opened Strings

  type Query = map<string, string>

  /** A share link: the network's base URL and its query fields. */
  datatype Link = Link(base: string, query: Query)

  datatype ShareLinks = ShareLinks(linkedin: Link, mastodon: Link, reddit: Link, telegram: Link,
                                   weibo: Link, whatsapp: Link, x: Link)

  datatype ShareInput = ShareInput(url: string, title: string, desc: string, hashtags: seq<string>)

  const DefaultJoinfix: string := ","

  /** The Telegram base URL, with the trailing quote it has in the source. */
  const TelegramBase: string := "https://t.me/share/url\""

  function Prefixed(hashtags: seq<string>, prefix: string, camelCase: string -> string): (r: seq<string>)
    ensures |r| == |hashtags|
    ensures forall i :: 0 <= i < |r| ==> r[i] == prefix + camelCase(hashtags[i])
  {
    seq(|hashtags|, i requires 0 <= i < |hashtags| => prefix + camelCase(hashtags[i]))
  }

  /** `stringifyHashtags`: with a prefix each tag is prefixed before the empty ones are dropped. */
  function StringifyHashtags(hashtags: seq<string>, joinfix: string, prefix: string, camelCase: string -> string): string {
    var tags := if prefix != "" then Prefixed(hashtags, prefix, camelCase) else hashtags;
    Join(NonEmpty(tags), joinfix)
  }

  /** A list of non-empty strings passes the empty-string filter unchanged. */
  lemma {:induction false} NonEmptyOfNonEmpty(parts: seq<string>)
    requires forall i :: 0 <= i < |parts| ==> parts[i] != ""
    ensures NonEmpty(parts) == parts
  {
    if |parts| > 0 {
      NonEmptyOfNonEmpty(parts[1..]);
    }
  }

  /**
   * With a prefix every tag is kept, an empty one as the bare prefix; without a prefix the
   * empty tags are dropped.
   */
  lemma HashtagsContract(hashtags: seq<string>, joinfix: string, prefix: string, camelCase: string -> string)
    ensures prefix != "" ==>
              StringifyHashtags(hashtags, joinfix, prefix, camelCase) == Join(Prefixed(hashtags, prefix, camelCase), joinfix)
    ensures prefix == "" ==> StringifyHashtags(hashtags, joinfix, prefix, camelCase) == Join(NonEmpty(hashtags), joinfix)
  {
    if prefix != "" {
      NonEmptyOfNonEmpty(Prefixed(hashtags, prefix, camelCase));
    }
  }

  /** An empty tag under the `#` prefix survives as a bare `#` whatever `camelCase` gives for the other tags. */
  lemma EmptyTagSurvives(camelCase: string -> string)
    requires camelCase("") == ""
    ensures StringifyHashtags([""], " ", "#", camelCase) == "#"
    ensures StringifyHashtags([""], " ", "", camelCase) == ""
  {
    HashtagsContract([""], " ", "#", camelCase);
    var tags := Prefixed([""], "#", camelCase);
    assert tags[0] == "#" + camelCase("") == "#";
    assert tags == ["#"];
    assert NonEmpty([""]) == [];
  }

  /** `[title, desc].filter(Boolean).join(' - ')`. */
  function TitleText(title: string, desc: string): string {
    Join(NonEmpty([title, desc]), " - ")
  }

  lemma TitleTextContract(title: string, desc: string)
    ensures title != "" && desc != "" ==> TitleText(title, desc) == title + " - " + desc
    ensures title != "" && desc == "" ==> TitleText(title, desc) == title
    ensures title == "" && desc != "" ==> TitleText(title, desc) == desc
    ensures title == "" && desc == "" ==> TitleText(title, desc) == ""
  {
    assert [title, desc][1..] == [desc];
    assert NonEmpty([desc]) == (if desc == "" then [] else [desc]) by {
      assert [desc][1..] == [];
    }
    if title == "" {
      assert NonEmpty([title, desc]) == NonEmpty([desc]);
    } else {
      assert NonEmpty([title, desc]) == [title] + NonEmpty([desc]);
      if desc == "" {
        assert NonEmpty([title, desc]) == [title];
      } else {
        assert NonEmpty([title, desc]) == [title, desc];
        assert [title, desc][1..] == [desc];
        assert Join([desc], " - ") == desc;
        assert Join([title, desc], " - ") == title + " - " + Join([desc], " - ");
      }
    }
  }

  /** `pickBy(query, identity)`: the fields with an empty value are dropped. */
  function PickBy(q: Query): (r: Query)
    ensures forall k :: k in r <==> k in q && q[k] != ""
    ensures forall k :: k in r ==> r[k] == q[k]
  {
    map k | k in q && q[k] != "" :: q[k]
  }

  /** The text of Reddit, Telegram, Weibo and Mastodon: title text and `#` hashtags, the non-empty ones joined by a space. */
  function TextWithHashtags(input: ShareInput, camelCase: string -> string): string {
    Join(NonEmpty([TitleText(input.title, input.desc), StringifyHashtags(input.hashtags, " ", "#", camelCase)]), " ")
  }

  function UseShare(input: ShareInput, camelCase: string -> string): ShareLinks {
    Links(input.url, TextWithHashtags(input, camelCase), TitleText(input.title, input.desc),
          StringifyHashtags(input.hashtags, " ", "#", camelCase),
          StringifyHashtags(input.hashtags, DefaultJoinfix, "", camelCase))
  }

  /** The links for the URL, the text with hashtags, the title text, the `#` tags and X's tags. */
  function Links(url: string, text: string, titleText: string, tags: string, xTags: string): ShareLinks {
    ShareLinks(
      Link("https://www.linkedin.com/sharing/share-offsite/", PickBy(map["url" := url])),
      Link("https://mastodon.social/share", TextQuery("text", text, url)),
      Link("https://www.reddit.com/submit", TextQuery("title", text, url)),
      Link(TelegramBase, TextQuery("text", text, url)),
      Link("http://service.weibo.com/share/share.php", WeiboQuery(text, url)),
      Link("https://api.whatsapp.com/send", WhatsappQuery(titleText, url, tags)),
      Link("https://x.com/intent/tweet", XQueryOf(xTags, titleText, url)))
  }

  /** A query of a text field and the URL. */
  function TextQuery(key: string, text: string, url: string): Query {
    PickBy(map[key := text, "url" := url])
  }

  /** WhatsApp's single text field: the title text, the URL and the tags, the non-empty ones joined by a space. */
  function WhatsappQuery(titleText: string, url: string, tags: string): Query {
    PickBy(map["text" := Join(NonEmpty([titleText, url, tags]), " ")])
  }

  function XQueryOf(xTags: string, titleText: string, url: string): Query {
    PickBy(map["hashtags" := xTags, "text" := titleText, "url" := url])
  }

  function WeiboQuery(text: string, url: string): Query {
    PickBy(map["sharesource" := "weibo", "title" := text, "url" := url])
  }

  /** No query of any link carries an empty value. */
  lemma NoEmptyQueryValues(input: ShareInput, camelCase: string -> string)
    ensures var l := UseShare(input, camelCase);
      forall link :: link in [l.linkedin, l.mastodon, l.reddit, l.telegram, l.weibo, l.whatsapp, l.x] ==>
        forall k :: k in link.query ==> link.query[k] != ""
  {
  }

  /**
   * Reddit (under `title`), Telegram, Weibo (under `title`) and Mastodon carry the text with
   * hashtags and the URL as a separate field; Weibo always adds `sharesource: weibo`; LinkedIn
   * carries only the URL.
   */
  lemma NetworkQueries(input: ShareInput, camelCase: string -> string)
    requires input.url != ""
    ensures var l := UseShare(input, camelCase); var text := TextWithHashtags(input, camelCase);
      l.linkedin.query == map["url" := input.url]
      && "sharesource" in l.weibo.query && l.weibo.query["sharesource"] == "weibo"
      && "url" in l.weibo.query && l.weibo.query["url"] == input.url
      && "url" in l.reddit.query && l.reddit.query["url"] == input.url
      && "url" in l.telegram.query && l.telegram.query["url"] == input.url
      && "url" in l.mastodon.query && l.mastodon.query["url"] == input.url
      && (text != "" ==>
            "title" in l.reddit.query && l.reddit.query["title"] == text
            && "title" in l.weibo.query && l.weibo.query["title"] == text
            && "text" in l.telegram.query && l.telegram.query["text"] == text
            && "text" in l.mastodon.query && l.mastodon.query["text"] == text)
      && l.telegram.base == TelegramBase
  {
    LinksQueries(input.url, TextWithHashtags(input, camelCase), TitleText(input.title, input.desc),
                 StringifyHashtags(input.hashtags, " ", "#", camelCase),
                 StringifyHashtags(input.hashtags, DefaultJoinfix, "", camelCase));
  }

  lemma LinksQueries(url: string, text: string, titleText: string, tags: string, xTags: string)
    requires url != ""
    ensures var l := Links(url, text, titleText, tags, xTags);
      l.linkedin.query == map["url" := url]
      && "sharesource" in l.weibo.query && l.weibo.query["sharesource"] == "weibo"
      && "url" in l.weibo.query && l.weibo.query["url"] == url
      && "url" in l.reddit.query && l.reddit.query["url"] == url
      && "url" in l.telegram.query && l.telegram.query["url"] == url
      && "url" in l.mastodon.query && l.mastodon.query["url"] == url
      && (text != "" ==>
            "title" in l.reddit.query && l.reddit.query["title"] == text
            && "title" in l.weibo.query && l.weibo.query["title"] == text
            && "text" in l.telegram.query && l.telegram.query["text"] == text
            && "text" in l.mastodon.query && l.mastodon.query["text"] == text)
      && l.telegram.base == TelegramBase
  {
    TextAndUrl("text", text, url);
    TextAndUrl("title", text, url);
    WeiboFields(text, url);
    LinkedinOnlyUrl(url);
  }

  lemma WeiboFields(text: string, url: string)
    requires url != ""
    ensures var q := WeiboQuery(text, url);
      "sharesource" in q && q["sharesource"] == "weibo" && "url" in q && q["url"] == url
      && (text != "" ==> "title" in q && q["title"] == text)
  {
    var m := map["sharesource" := "weibo", "title" := text, "url" := url];
    assert |"sharesource"| != |"title"| && |"sharesource"| != |"url"| && |"title"| != |"url"|;
    assert m["sharesource"] == "weibo" && m["url"] == url && m["title"] == text;
  }

  lemma LinkedinOnlyUrl(url: string)
    requires url != ""
    ensures PickBy(map["url" := url]) == map["url" := url]
  {
  }

  /** A two-field query keeps its URL field, and its text field when that is not empty. */
  lemma TextAndUrl(key: string, text: string, url: string)
    requires url != "" && |key| != |"url"|
    ensures var q := TextQuery(key, text, url);
      "url" in q && q["url"] == url && (text != "" ==> key in q && q[key] == text)
  {
    var m := map[key := text, "url" := url];
    assert m["url"] == url && m[key] == text;
  }

  /** WhatsApp puts the URL inside its text, between the title text and the hashtags, and has no URL field. */
  lemma WhatsappText(input: ShareInput, camelCase: string -> string)
    requires input.url != ""
    ensures var l := UseShare(input, camelCase);
      var titleText := TitleText(input.title, input.desc);
      var tags := StringifyHashtags(input.hashtags, " ", "#", camelCase);
      "url" !in l.whatsapp.query && l.whatsapp.query.Keys == {"text"}
      && (titleText != "" && tags != "" ==> l.whatsapp.query["text"] == titleText + " " + input.url + " " + tags)
      && (titleText == "" && tags == "" ==> l.whatsapp.query["text"] == input.url)
  {
    WhatsappFields(TitleText(input.title, input.desc), input.url, StringifyHashtags(input.hashtags, " ", "#", camelCase));
  }

  lemma WhatsappFields(titleText: string, url: string, tags: string)
    requires url != ""
    ensures var q := WhatsappQuery(titleText, url, tags);
      "url" !in q && q.Keys == {"text"}
      && (titleText != "" && tags != "" ==> q["text"] == titleText + " " + url + " " + tags)
      && (titleText == "" && tags == "" ==> q["text"] == url)
  {
    JoinAroundUrl(titleText, url, tags);
    assert |"url"| != |"text"|;
  }

  /** The non-empty entries of `[a, u, b]` joined by a space, for a non-empty middle entry. */
  lemma JoinAroundUrl(a: string, u: string, b: string)
    requires u != ""
    ensures var j := Join(NonEmpty([a, u, b]), " ");
      j != ""
      && (a != "" && b != "" ==> j == a + " " + u + " " + b)
      && (a == "" && b == "" ==> j == u)
  {
    var parts := [a, u, b];
    assert parts[1..] == [u, b];
    assert [u, b][1..] == [b];
    assert [b][1..] == [];
    assert NonEmpty([u, b]) == [u] + NonEmpty([b]);
    assert NonEmpty([u, b]) != [];
    if a == "" {
      assert NonEmpty(parts) == NonEmpty([u, b]);
    } else {
      assert NonEmpty(parts) == [a] + NonEmpty([u, b]);
    }
    assert u in NonEmpty(parts);
    JoinHoldsPart(NonEmpty(parts), " ", u);
    if a != "" && b != "" {
      assert NonEmpty([b]) == [b];
      assert NonEmpty(parts) == [a, u, b];
      assert Join([u, b], " ") == u + " " + b;
      assert Join([a, u, b], " ") == a + " " + Join([u, b], " ");
    }
    if a == "" && b == "" {
      assert NonEmpty([b]) == [];
      assert NonEmpty(parts) == [u];
    }
  }

  /** A join with at least one non-empty part is not empty. */
  lemma {:induction false} JoinHoldsPart(parts: seq<string>, sep: string, p: string)
    requires p in parts && p != ""
    ensures Join(parts, sep) != ""
  {
    if |parts| > 1 && parts[0] != p {
      JoinHoldsPart(parts[1..], sep, p);
    }
  }

  /** X uses the default `,` separator and no prefix for its hashtags, and the title text without hashtags. */
  lemma XQuery(input: ShareInput, camelCase: string -> string)
    ensures var q := UseShare(input, camelCase).x.query;
      var tags := Join(NonEmpty(input.hashtags), ",");
      ("hashtags" in q <==> tags != "") && ("hashtags" in q ==> q["hashtags"] == tags)
      && ("text" in q <==> TitleText(input.title, input.desc) != "")
      && ("text" in q ==> q["text"] == TitleText(input.title, input.desc))
  {
    HashtagsContract(input.hashtags, DefaultJoinfix, "", camelCase);
    XFields(StringifyHashtags(input.hashtags, DefaultJoinfix, "", camelCase), TitleText(input.title, input.desc), input.url);
  }

  lemma XFields(xTags: string, titleText: string, url: string)
    ensures var q := XQueryOf(xTags, titleText, url);
      ("hashtags" in q <==> xTags != "") && ("hashtags" in q ==> q["hashtags"] == xTags)
      && ("text" in q <==> titleText != "") && ("text" in q ==> q["text"] == titleText)
  {
    var m := map["hashtags" := xTags, "text" := titleText, "url" := url];
    assert |"hashtags"| != |"text"| && |"hashtags"| != |"url"| && |"text"| != |"url"|;
    assert m["hashtags"] == xTags && m["text"] == titleText;
  }

  /** Every Telegram link is built on the share URL with its trailing quote character kept. */
  lemma TelegramQuote(input: ShareInput, camelCase: string -> string)
    ensures var b := UseShare(input, camelCase).telegram.base;
      b == "https://t.me/share/url" + "\"" && b[|b| - 1] == '"'
  {
  }
}
