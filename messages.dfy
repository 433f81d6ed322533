/**
 * Message content and its text rendering (pkg/types/message.go), with the tool-call
 * records messages carry (pkg/types/function.go).  Go's `Content` interface becomes a
 * datatype with one constructor per implementation in the library.
 */
module Messages {
  import opened Wrappers
  import opened Common

  datatype ImageContent = ImageContent(url: string, data: string, detail: ImageDetail, mimeType: string)

  datatype AudioContent = AudioContent(url: string, data: string, mimeType: string, transcript: string)

  /** The anonymous `ImageURL` struct of a content part. */
  datatype ImageURL = ImageURL(url: string, detail: ImageDetail)

  datatype ContentPart = ContentPart(
    partType: ContentType,
    text: string,
    imageURL: Option<ImageURL>,
    audio: Option<AudioContent>)

  datatype Content =
    | TextContent(text: string)
    | Image(image: ImageContent)
    | Audio(audio: AudioContent)
    | MultiContent(parts: seq<ContentPart>)

  datatype FunctionCall = FunctionCall(name: string, arguments: string)

  datatype ToolCall = ToolCall(id: string, toolType: ToolType, call: FunctionCall, index: int)

  /** A chat message; `content` is None for a nil Content.  Metadata is not modelled. */
  datatype Message = Message(
    role: Role,
    content: Option<Content>,
    name: string,
    toolCallID: string,
    toolCalls: seq<ToolCall>,
    functionCall: Option<FunctionCall>)

  /** NewTextContent. */
  function NewTextContent(text: string): (c: Content)
    ensures c.TextContent? && c.text == text
  {
    TextContent(text)
  }

  // ----- rendering of single contents -----

  /** The tag both image renderings start with. */
  const ImageTag := "[Image: "
  /** The tag both audio renderings start with. */
  const AudioTag := "[Audio: "
  /** What stands in for inline data that has no URL or transcript. */
  const Base64Placeholder := "base64 data"

  /** True when `s` is `tag`, then `inner`, then a closing bracket. */
  predicate Tagged(s: string, tag: string, inner: string) {
    |s| == |tag| + |inner| + 1 && s[..|tag|] == tag && s[|tag|..|s| - 1] == inner && s[|s| - 1] == ']'
  }

  lemma TaggedByConcat(tag: string, inner: string)
    ensures Tagged(tag + inner + "]", tag, inner)
  {
    var s := tag + inner + "]";
    assert s[..|tag|] == tag;
    assert s[|tag|..|s| - 1] == inner;
  }

  /** ImageContent.String: the URL between "[Image: " and "]", or the base64 placeholder when there is no URL. */
  function ImageString(i: ImageContent): (s: string)
    ensures i.url != "" ==> Tagged(s, ImageTag, i.url)
    ensures i.url == "" ==> Tagged(s, ImageTag, Base64Placeholder)
  {
    var inner := if i.url != "" then i.url else Base64Placeholder;
    TaggedByConcat(ImageTag, inner);
    ImageTag + inner + "]"
  }

  /** AudioContent.String: the transcript first, then the URL, then the base64 placeholder. */
  function AudioString(a: AudioContent): (s: string)
    ensures a.transcript != "" ==> Tagged(s, AudioTag, a.transcript)
    ensures a.transcript == "" && a.url != "" ==> Tagged(s, AudioTag, a.url)
    ensures a.transcript == "" && a.url == "" ==> Tagged(s, AudioTag, Base64Placeholder)
  {
    var inner := if a.transcript != "" then a.transcript else if a.url != "" then a.url else Base64Placeholder;
    TaggedByConcat(AudioTag, inner);
    AudioTag + inner + "]"
  }

  /** One part of a multi-part content, as MultiContent.String's switch renders it ("" for unlisted types). */
  function PartString(p: ContentPart): string {
    if p.partType == ContentTypeText then p.text
    else if p.partType == ContentTypeImage || p.partType == ContentTypeImageURL then
      (if p.imageURL.Some? then ImageTag + p.imageURL.value.url + "]" else "[Image]")
    else if p.partType == ContentTypeAudio then
      (if p.audio.Some? then AudioString(p.audio.value) else "[Audio]")
    else ""
  }

  /** The parts rendered one by one, with a single space before every part but the first. */
  function JoinParts(parts: seq<ContentPart>): string
    decreases |parts|
  {
    if parts == [] then ""
    else
      var init := parts[..|parts| - 1];
      JoinParts(init) + (if init != [] then " " else "") + PartString(parts[|parts| - 1])
  }

  /** MultiContent.String, computed as the source does it: a loop appending to `result`. */
  method MultiString(parts: seq<ContentPart>) returns (result: string)
    ensures result == JoinParts(parts)
  {
    result := "";
    var i := 0;
    while i < |parts|
      invariant 0 <= i <= |parts|
      invariant result == JoinParts(parts[..i])
    {
      assert parts[..i + 1][..i] == parts[..i];
      if i > 0 {
        result := result + " ";
      }
      result := result + PartString(parts[i]);
      i := i + 1;
    }
    assert parts[..i] == parts;
  }

  /**
   * Content.String for every implementation: text verbatim, an image or audio clip through
   * its own tagged rendering, and multi-part content as its parts' renderings joined by spaces.
   */
  function ContentString(c: Content): (s: string)
    ensures c.TextContent? ==> s == c.text
    ensures c.Image? ==> s == ImageString(c.image)
    ensures c.Audio? ==> s == AudioString(c.audio)
    ensures c.MultiContent? ==> s == SpaceJoin(Rendered(c.parts))
  {
    match c
    case TextContent(t) => t
    case Image(i) => ImageString(i)
    case Audio(a) => AudioString(a)
    case MultiContent(parts) =>
      JoinPartsIsSpaceJoin(parts);
      JoinParts(parts)
  }

  /** Content.Type: multi-part content counts as text. */
  function ContentTypeOf(c: Content): (t: ContentType)
    ensures ContentTypeIsValid(t)
    ensures c.TextContent? || c.MultiContent? <==> t == ContentTypeText
    ensures c.Image? <==> t == ContentTypeImage
    ensures c.Audio? <==> t == ContentTypeAudio
  {
    match c
    case TextContent(_) => ContentTypeText
    case Image(_) => ContentTypeImage
    case Audio(_) => ContentTypeAudio
    case MultiContent(_) => ContentTypeText
  }

  /** TextContent renders as its text verbatim. */
  lemma TextRendersVerbatim(t: string)
    ensures ContentString(NewTextContent(t)) == t && ContentTypeOf(NewTextContent(t)) == ContentTypeText
  {
  }

  // ----- a reference definition of the multi-part rendering -----

  /** The strings joined right to left, one space between neighbours. */
  function SpaceJoin(strs: seq<string>): string {
    if strs == [] then ""
    else if |strs| == 1 then strs[0]
    else strs[0] + " " + SpaceJoin(strs[1..])
  }

  /** Each part's own rendering, in order. */
  function Rendered(parts: seq<ContentPart>): (r: seq<string>)
    ensures |r| == |parts|
    decreases |parts|
  {
    if parts == [] then [] else Rendered(parts[..|parts| - 1]) + [PartString(parts[|parts| - 1])]
  }

  lemma {:induction false} RenderedAt(parts: seq<ContentPart>, i: int)
    requires 0 <= i < |parts|
    ensures Rendered(parts)[i] == PartString(parts[i])
    decreases |parts|
  {
    if i < |parts| - 1 {
      RenderedAt(parts[..|parts| - 1], i);
    }
  }

  lemma {:induction false} SpaceJoinSnoc(strs: seq<string>, s: string)
    ensures SpaceJoin(strs + [s]) == SpaceJoin(strs) + (if strs == [] then "" else " ") + s
    decreases |strs|
  {
    if |strs| <= 1 {
      assert strs == [] || strs + [s] == [strs[0], s];
    } else {
      assert (strs + [s])[1..] == strs[1..] + [s];
      SpaceJoinSnoc(strs[1..], s);
    }
  }

  /** MultiContent.String is the parts' renderings separated by single spaces. */
  lemma {:induction false} JoinPartsIsSpaceJoin(parts: seq<ContentPart>)
    ensures JoinParts(parts) == SpaceJoin(Rendered(parts))
    decreases |parts|
  {
    if parts != [] {
      var init := parts[..|parts| - 1];
      JoinPartsIsSpaceJoin(init);
      SpaceJoinSnoc(Rendered(init), PartString(parts[|parts| - 1]));
    }
  }

  /** Sum of the lengths of the parts' renderings. */
  function RenderedLength(parts: seq<ContentPart>): nat
    decreases |parts|
  {
    if parts == [] then 0 else RenderedLength(parts[..|parts| - 1]) + |PartString(parts[|parts| - 1])|
  }

  /** Exactly one separator per gap: the length is the parts' lengths plus |parts| - 1. */
  lemma {:induction false} JoinPartsLength(parts: seq<ContentPart>)
    requires parts != []
    ensures |JoinParts(parts)| == RenderedLength(parts) + |parts| - 1
    decreases |parts|
  {
    if |parts| > 1 {
      JoinPartsLength(parts[..|parts| - 1]);
    }
  }

  /** Parts that render as empty (say, of type video) still contribute their separator. */
  lemma {:induction false} EmptyPartsStillSeparated(parts: seq<ContentPart>)
    requires parts != []
    requires forall i :: 0 <= i < |parts| ==> PartString(parts[i]) == ""
    ensures JoinParts(parts) == seq(|parts| - 1, _ => ' ')
    decreases |parts|
  {
    if |parts| > 1 {
      EmptyPartsStillSeparated(parts[..|parts| - 1]);
    }
  }

  // ----- part constructors -----

  /** NewTextPart. */
  function NewTextPart(text: string): (p: ContentPart)
    ensures p.partType == ContentTypeText && p.text == text
  {
    ContentPart(ContentTypeText, text, None, None)
  }

  /** NewImagePart: an image_url part. */
  function NewImagePart(url: string, detail: ImageDetail): (p: ContentPart)
    ensures p.partType == ContentTypeImageURL && p.imageURL == Some(ImageURL(url, detail))
  {
    ContentPart(ContentTypeImageURL, "", Some(ImageURL(url, detail)), None)
  }

  /** NewAudioPart; `audio` is None for nil. */
  function NewAudioPart(audio: Option<AudioContent>): (p: ContentPart)
    ensures p.partType == ContentTypeAudio && p.audio == audio
  {
    ContentPart(ContentTypeAudio, "", None, audio)
  }

  /**
   * How the constructed parts render inside a MultiContent.  An image part always shows
   * its URL, even an empty one: unlike ImageContent.String it has no placeholder.
   */
  lemma PartRenderings(text: string, url: string, detail: ImageDetail, audio: AudioContent)
    ensures PartString(NewTextPart(text)) == text
    ensures Tagged(PartString(NewImagePart(url, detail)), ImageTag, url)
    ensures PartString(NewAudioPart(Some(audio))) == AudioString(audio)
    ensures PartString(NewAudioPart(None)) == "[Audio]"
    ensures PartString(ContentPart(ContentTypeImage, "", None, None)) == "[Image]"
    ensures PartString(ContentPart(ContentTypeImageURL, "", None, None)) == "[Image]"
  {
    TaggedByConcat(ImageTag, url);
  }

  /** Zero parts render as ""; a single text part renders as its text. */
  lemma SmallMultiContents(text: string)
    ensures ContentString(MultiContent([])) == ""
    ensures ContentString(MultiContent([NewTextPart(text)])) == text
  {
    assert [NewTextPart(text)][..0] == [];
  }
}
