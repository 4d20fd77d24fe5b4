/**
 * Data URLs with a base64 payload, `data:<mediatype>;base64,<data>`, as defined in
 * section 2 of RFC 2397.
 */
module DataUrls {
  import opened Wrappers
  import opened Strings

  /** `data:${mime};base64,${data}`. */
  function Base64DataUrl(mime: string, data: string): string {
    "data:" + mime + ";base64," + data
  }

  datatype DataUrlParts = DataUrlParts(mime: string, data: string)

  /** Splits a base64 data URL at the first `;base64,` after the scheme. */
  function ParseBase64DataUrl(url: string): Option<DataUrlParts> {
    if !StartsWith(url, "data:") then None
    else
      var rest := url[5..];
      match IndexOf(rest, ";base64,")
      case None => None
      case Some(k) => Some(DataUrlParts(rest[..k], rest[k + 8..]))
  }

  /** Whatever the parse accepts is the URL built from the parts it returns. */
  lemma ParseSound(url: string)
    ensures var r := ParseBase64DataUrl(url);
      r.Some? ==> url == Base64DataUrl(r.value.mime, r.value.data)
  {
    if ParseBase64DataUrl(url).Some? {
      var rest := url[5..];
      var k := IndexOf(rest, ";base64,").value;
      SplitAtOccurrence(rest, ";base64,", k);
      assert url == url[..5] + rest;
    }
  }

  /** A media type without `;` is recovered, with the payload, from the URL built from it. */
  lemma ParseBuild(mime: string, data: string)
    requires forall i :: 0 <= i < |mime| ==> mime[i] != ';'
    ensures ParseBase64DataUrl(Base64DataUrl(mime, data)) == Some(DataUrlParts(mime, data))
  {
    var url := Base64DataUrl(mime, data);
    var rest := mime + ";base64," + data;
    assert url[..5] == "data:";
    assert url[5..] == rest;
    assert rest[|mime|..|mime| + 8] == ";base64,";
    ContainsAt(rest, ";base64,", |mime|);
    var k := IndexOf(rest, ";base64,").value;
    assert OccursAt(rest, ";base64,", k);
    assert rest[k] == ';' by {
      assert rest[k..k + 8][0] == ';';
    }
    forall j | 0 <= j < |mime|
      ensures !OccursAt(rest, ";base64,", j)
    {
      OccursAtHead(rest, ";base64,", j);
      assert rest[j] == mime[j];
    }
    assert k <= |mime| by {
      assert OccursAt(rest, ";base64,", |mime|);
    }
    assert rest[..k] == mime;
    assert rest[k + 8..] == data;
  }
}
