/** The extraction `generateOpenRouterImageResponse` (bot.js) performs on a chat-completion
    reply: a priority-ordered search for text, an image URL or base64 image data in
    `choices[0].message`. The reply arrives parsed; the regex scrape of the serialised reply
    for an image URL arrives as its result. */
module ImageReply {
  import opened Common

  const NoAnswer := "Нет ответа от модели"
  const DataUrlPrefix := "data:image/"

  /** One element of an array `content`: its `type` and the fields the extraction reads
      (`imageUrl` is `image_url.url`, `b64Json` is `b64_json`). */
  datatype ContentPart = ContentPart(kind: string, text: Option<string>, imageUrl: Option<string>,
                                     url: Option<string>, b64Json: Option<string>, data: Option<string>)

  /** `message.content`: missing (or of another JSON type), a string, or an array of parts. */
  datatype Content = NoContent | Plain(text: string) | Parts(parts: seq<ContentPart>)

  /** One element of `message.images`: its `type` and `image_url.url`. */
  datatype ImageEntry = ImageEntry(kind: string, imageUrl: Option<string>)

  datatype ChatMessage = ChatMessage(content: Content, images: Option<seq<ImageEntry>>)

  /** The object returned: `{ text?, imageUrl?, imageData? }`. */
  datatype Extracted = Extracted(text: Option<string>, imageUrl: Option<string>, imageData: Option<string>)

  /** The characters `String.prototype.trim` removes: ECMAScript white space and line terminators. */
  predicate IsTrimmed(c: char)
  {
    c == '\t' || c == '\n' || c == '\U{000B}' || c == '\U{000C}' || c == '\r' || c == ' '
    || c == '\U{00A0}' || c == '\U{1680}' || ('\U{2000}' <= c <= '\U{200A}')
    || c == '\U{2028}' || c == '\U{2029}' || c == '\U{202F}' || c == '\U{205F}'
    || c == '\U{3000}' || c == '\U{FEFF}'
  }

  /** `s.trim().length === 0`. */
  predicate IsBlank(s: string)
  {
    forall i :: 0 <= i < |s| ==> IsTrimmed(s[i])
  }

  /** `parts.findIndex(p => kinds has p.type)`, as an option. */
  function FirstOfKinds(parts: seq<ContentPart>, kinds: set<string>): (r: Option<nat>)
    ensures r.Some? ==> r.value < |parts| && parts[r.value].kind in kinds
    ensures r.Some? ==> forall j :: 0 <= j < r.value ==> parts[j].kind !in kinds
    ensures r.None? ==> forall j :: 0 <= j < |parts| ==> parts[j].kind !in kinds
    decreases |parts|
  {
    if parts == [] then None
    else if parts[0].kind in kinds then Some(0)
    else match FirstOfKinds(parts[1..], kinds)
      case None => None
      case Some(i) => Some(i + 1)
  }

  const TextKinds: set<string> := {"text"}
  const ImageKinds: set<string> := {"output_image", "image_url", "image"}

  /** `textPart?.text`. */
  function TextOfParts(parts: seq<ContentPart>): Option<string>
  {
    match FirstOfKinds(parts, TextKinds)
    case None => None
    case Some(i) => parts[i].text
  }

  /** The array-content stage: the first image part's `image_url.url`, `url`, `b64_json` or
      `data` (in that order) with the first text part's text, else that text alone. */
  function FromParts(parts: seq<ContentPart>): (r: Option<Extracted>)
    ensures r.Some? ==> !(r.value.imageUrl.Some? && r.value.imageData.Some?)
    ensures r.Some? ==> r.value.text == TextOfParts(parts)
    ensures FirstOfKinds(parts, ImageKinds).Some? ==>
      var part := parts[FirstOfKinds(parts, ImageKinds).value];
      var text := TextOfParts(parts);
      && (Truthy(part.imageUrl) ==> r == Some(Extracted(text, part.imageUrl, None)))
      && (!Truthy(part.imageUrl) && Truthy(part.url) ==> r == Some(Extracted(text, part.url, None)))
      && (!Truthy(part.imageUrl) && !Truthy(part.url) && Truthy(part.b64Json) ==>
            r == Some(Extracted(text, None, part.b64Json)))
      && (!Truthy(part.imageUrl) && !Truthy(part.url) && !Truthy(part.b64Json) && Truthy(part.data) ==>
            r == Some(Extracted(text, None, part.data)))
      && (!Truthy(part.imageUrl) && !Truthy(part.url) && !Truthy(part.b64Json) && !Truthy(part.data) ==>
            r == if Truthy(text) then Some(Extracted(text, None, None)) else None)
    ensures FirstOfKinds(parts, ImageKinds).None? ==>
      r == if Truthy(TextOfParts(parts)) then Some(Extracted(TextOfParts(parts), None, None)) else None
    ensures r.None? <==> (!Truthy(TextOfParts(parts)) &&
      match FirstOfKinds(parts, ImageKinds)
      case None => true
      case Some(o) => !Truthy(parts[o].imageUrl) && !Truthy(parts[o].url) && !Truthy(parts[o].b64Json) && !Truthy(parts[o].data))
  {
    var text := TextOfParts(parts);
    match FirstOfKinds(parts, ImageKinds)
    case Some(o) =>
      var part := parts[o];
      if Truthy(part.imageUrl) then Some(Extracted(text, part.imageUrl, None))
      else if Truthy(part.url) then Some(Extracted(text, part.url, None))
      else if Truthy(part.b64Json) then Some(Extracted(text, None, part.b64Json))
      else if Truthy(part.data) then Some(Extracted(text, None, part.data))
      else if Truthy(text) then Some(Extracted(text, None, None))
      else None
    case None =>
      if Truthy(text) then Some(Extracted(text, None, None)) else None
  }

  /** `s.indexOf(c)`, as an option. */
  function IndexOf(s: string, c: char): (r: Option<nat>)
    ensures r.Some? ==> r.value < |s| && s[r.value] == c && c !in s[..r.value]
    ensures r.None? ==> c !in s
    decreases |s|
  {
    if s == [] then None
    else if s[0] == c then Some(0)
    else match IndexOf(s[1..], c)
      case None => None
      case Some(i) =>
        assert s[..i + 1] == [s[0]] + s[1..][..i];
        Some(i + 1)
  }

  /** `u.split(',')[1]`: the text between the first and the second comma, `undefined`
      when there is no comma. */
  function SecondCommaField(u: string): (r: Option<string>)
    ensures r.Some? ==> ',' !in r.value
    ensures r.None? <==> ',' !in u
    ensures match IndexOf(u, ',')
            case None => r.None?
            case Some(i) => r.Some? && r.value <= u[i + 1..] &&
                            (i + 1 + |r.value| == |u| || u[i + 1 + |r.value|] == ',')
  {
    match IndexOf(u, ',')
    case None => None
    case Some(i) =>
      var rest := u[i + 1..];
      match IndexOf(rest, ',')
      case None => Some(rest)
      case Some(j) => Some(rest[..j])
  }

  /** A base64 data URL `data:image/<type>;base64,<payload>` yields exactly its payload. */
  lemma DataUrlPayload(header: string, payload: string)
    requires ',' !in header && ',' !in payload
    ensures SecondCommaField(header + "," + payload) == Some(payload)
  {
    var u := header + "," + payload;
    var idx := IndexOf(u, ',');
    assert u[|header|] == ',';
    assert forall j :: 0 <= j < |header| ==> u[j] == header[j];
    assert idx.Some? && idx.value == |header|;
    assert u[idx.value + 1..] == payload;
  }

  /** The `images` stage: the first entry, if it has type 'image_url' and a URL; a data URL
      gives the text after its first comma as image data, any other URL an image URL. */
  function FromImages(images: Option<seq<ImageEntry>>): (r: Option<Extracted>)
    ensures r.Some? ==> r.value.text.None? && !(r.value.imageUrl.Some? && r.value.imageData.Some?)
    ensures r.Some? <==> images.Some? && |images.value| > 0 && images.value[0].kind == "image_url"
                         && Truthy(images.value[0].imageUrl)
    ensures r.Some? && StartsWith(images.value[0].imageUrl.value, DataUrlPrefix) ==>
      r.value == Extracted(None, None, SecondCommaField(images.value[0].imageUrl.value))
    ensures r.Some? && !StartsWith(images.value[0].imageUrl.value, DataUrlPrefix) ==>
      r.value == Extracted(None, images.value[0].imageUrl, None)
  {
    if images.Some? && |images.value| > 0 && images.value[0].kind == "image_url" && Truthy(images.value[0].imageUrl) then
      var u := images.value[0].imageUrl.value;
      if StartsWith(u, DataUrlPrefix) then Some(Extracted(None, None, SecondCommaField(u)))
      else Some(Extracted(None, Some(u), None))
    else None
  }

  /** The content stages taken together: non-blank string content, then array content. */
  function FromContent(c: Content): (r: Option<Extracted>)
  {
    match c
    case Plain(s) => if !IsBlank(s) then Some(Extracted(Some(s), None, None)) else None
    case Parts(parts) => FromParts(parts)
    case NoContent => None
  }

  /** `generateOpenRouterImageResponse` after the HTTP exchange: `message` is
      `data.choices?.[0]?.message` and `scraped` the first image URL the regex finds in the
      serialised reply. */
  function Extract(message: Option<ChatMessage>, scraped: Option<string>): (r: Extracted)
    ensures !(r.imageUrl.Some? && r.imageData.Some?)
    ensures message.Some? && message.value.content.Plain? && !IsBlank(message.value.content.text) ==>
      r == Extracted(Some(message.value.content.text), None, None)
    ensures message.Some? && FromContent(message.value.content).Some? ==> r == FromContent(message.value.content).value
    ensures message.Some? && FromContent(message.value.content).None? && FromImages(message.value.images).Some? ==>
      r == FromImages(message.value.images).value
    ensures (message.None? || (FromContent(message.value.content).None? && FromImages(message.value.images).None?)) ==>
      r == if scraped.Some? then Extracted(None, scraped, None) else Extracted(Some(NoAnswer), None, None)
  {
    if message.Some? && FromContent(message.value.content).Some? then FromContent(message.value.content).value
    else if message.Some? && FromImages(message.value.images).Some? then FromImages(message.value.images).value
    else if scraped.Some? then Extracted(None, scraped, None)
    else Extracted(Some(NoAnswer), None, None)
  }

  /** Usable content decides the answer alone: `images` and the scraped URL are not consulted. */
  lemma ContentBeatsImages(c: Content, images1: Option<seq<ImageEntry>>, images2: Option<seq<ImageEntry>>,
                           scraped1: Option<string>, scraped2: Option<string>)
    requires FromContent(c).Some?
    ensures Extract(Some(ChatMessage(c, images1)), scraped1) == Extract(Some(ChatMessage(c, images2)), scraped2)
  {
  }

  /** In array content an image part wins over the text part, and its `image_url.url`
      wins over its other locators; the text part's text rides along. */
  lemma {:induction false} ImagePartFirst(before: seq<ContentPart>, part: ContentPart, after: seq<ContentPart>,
                                          images: Option<seq<ImageEntry>>, scraped: Option<string>)
    requires forall j :: 0 <= j < |before| ==> before[j].kind !in ImageKinds
    requires part.kind in ImageKinds && Truthy(part.imageUrl)
    ensures var parts := before + [part] + after;
            Extract(Some(ChatMessage(Parts(parts), images)), scraped) == Extracted(TextOfParts(parts), part.imageUrl, None)
  {
    var parts := before + [part] + after;
    var o := FirstOfKinds(parts, ImageKinds);
    assert parts[|before|] == part;
    assert forall j :: 0 <= j < |before| ==> parts[j] == before[j];
    assert o.Some? && o.value == |before|;
    assert FromParts(parts) == Some(Extracted(TextOfParts(parts), part.imageUrl, None));
  }

  /** When nothing in `content` is usable, a plain URL in `images[0]` is the answer, whatever
      the scrape of the serialised reply found. */
  lemma ImageEntryBeatsScrape(c: Content, u: string, rest: seq<ImageEntry>, scraped: Option<string>)
    requires FromContent(c).None?
    requires u != "" && !StartsWith(u, DataUrlPrefix)
    ensures Extract(Some(ChatMessage(c, Some([ImageEntry("image_url", Some(u))] + rest))), scraped)
              == Extracted(None, Some(u), None)
  {
  }

  /** When nothing in `content` is usable, a data URL in `images[0]` yields its payload. */
  lemma DataUrlImage(c: Content, header: string, payload: string, rest: seq<ImageEntry>, scraped: Option<string>)
    requires FromContent(c).None?
    requires ',' !in header && ',' !in payload
    ensures var u := DataUrlPrefix + header + "," + payload;
            Extract(Some(ChatMessage(c, Some([ImageEntry("image_url", Some(u))] + rest))), scraped)
              == Extracted(None, None, Some(payload))
  {
    var u := DataUrlPrefix + header + "," + payload;
    assert u == (DataUrlPrefix + header) + "," + payload;
    assert u[..|DataUrlPrefix|] == DataUrlPrefix;
    DataUrlPayload(DataUrlPrefix + header, payload);
  }
}
