/**
 * Message-processing helpers shared by the three handlers: text extraction (for token counting),
 * the single-pass image check and image-part rewrite, and the older image check.
 */
module MessageProcessing {
  import opened Wrappers
  import opened Strings
  import opened Types

  /** The texts of the text parts of a content list, in order (specification). */
  function TextsOf(parts: seq<Part>): seq<string>
  {
    if |parts| == 0 then []
    else TextsOf(parts[..|parts| - 1]) + (if parts[|parts| - 1].TextPart? then [parts[|parts| - 1].text] else [])
  }

  /** Extracting texts distributes over concatenation: order is kept and nothing is mixed. */
  lemma {:induction false} TextsOfAppend(a: seq<Part>, b: seq<Part>)
    ensures TextsOf(a + b) == TextsOf(a) + TextsOf(b)
    decreases |b|
  {
    if |b| == 0 {
      assert a + b == a;
    } else {
      var c := a + b;
      assert c[..|c| - 1] == a + b[..|b| - 1];
      TextsOfAppend(a, b[..|b| - 1]);
    }
  }

  /** Every extracted text is the text of some text part, and every text part contributes its text. */
  lemma {:induction false} TextsOfMembers(parts: seq<Part>)
    ensures forall t :: t in TextsOf(parts) <==> TextPart(t) in parts
  {
    if |parts| > 0 {
      var init := parts[..|parts| - 1];
      TextsOfMembers(init);
      assert parts == init + [parts[|parts| - 1]];
      forall t ensures TextPart(t) in parts <==> TextPart(t) in init || TextPart(t) == parts[|parts| - 1] {
      }
    }
  }

  /** `extractTextFromMessageContent`: a string unchanged, else the text parts joined with a newline. */
  method ExtractTextFromMessageContent(content: Content) returns (r: string)
    ensures content.Text? ==> r == content.text
    ensures content.Parts? ==> r == Join(TextsOf(content.parts), "\n")
  {
    if content.Text? {
      return content.text;
    }
    var parts := content.parts;
    var textParts: seq<string> := [];
    var i := 0;
    while i < |parts|
      invariant 0 <= i <= |parts|
      invariant textParts == TextsOf(parts[..i])
    {
      assert parts[..i + 1][..i] == parts[..i];
      if parts[i].TextPart? {
        textParts := textParts + [parts[i].text];
      }
      i := i + 1;
    }
    assert parts[..|parts|] == parts;
    r := Join(textParts, "\n");
  }

  /** The joined text splits back into exactly the text parts when none of them holds a newline. */
  lemma ExtractedTextSplitsBack(parts: seq<Part>)
    requires TextsOf(parts) != []
    requires forall i :: 0 <= i < |parts| && parts[i].TextPart? ==> '\n' !in parts[i].text
    ensures Split(Join(TextsOf(parts), "\n"), '\n') == TextsOf(parts)
  {
    var ts := TextsOf(parts);
    TextsOfMembers(parts);
    forall k | 0 <= k < |ts| ensures '\n' !in ts[k] {
      assert ts[k] in ts;
      var i :| 0 <= i < |parts| && parts[i] == TextPart(ts[k]);
    }
    SplitJoin(ts, '\n');
  }

  /** The texts a message contributes to token counting: none, its string, or its text parts. */
  function ContentTexts(content: Option<Content>): seq<string>
  {
    match content
    case None => []
    case Some(Text(s)) => [s]
    case Some(Parts(parts)) => TextsOf(parts)
  }

  /** The texts of a whole message list, message by message (specification). */
  function AllTexts(contents: seq<Option<Content>>): seq<string>
  {
    if |contents| == 0 then []
    else AllTexts(contents[..|contents| - 1]) + ContentTexts(contents[|contents| - 1])
  }

  /** Collecting texts distributes over concatenation of message lists. */
  lemma {:induction false} AllTextsAppend(a: seq<Option<Content>>, b: seq<Option<Content>>)
    ensures AllTexts(a + b) == AllTexts(a) + AllTexts(b)
    decreases |b|
  {
    if |b| == 0 {
      assert a + b == a;
    } else {
      var c := a + b;
      var b' := b[..|b| - 1];
      var last := ContentTexts(b[|b| - 1]);
      assert c[..|c| - 1] == a + b';
      assert c[|c| - 1] == b[|b| - 1];
      assert AllTexts(c) == AllTexts(a + b') + last;
      assert AllTexts(b) == AllTexts(b') + last;
      AllTextsAppend(a, b');
      ConcatAssoc(AllTexts(a), AllTexts(b'), last);
    }
  }

  /** A list of string contents contributes exactly those strings, in order. */
  lemma {:induction false} AllTextsOfStrings(contents: seq<Option<Content>>)
    requires forall i :: 0 <= i < |contents| ==> contents[i].Some? && contents[i].value.Text?
    ensures |AllTexts(contents)| == |contents|
    ensures forall i :: 0 <= i < |contents| ==> AllTexts(contents)[i] == contents[i].value.text
  {
    if |contents| > 0 {
      AllTextsOfStrings(contents[..|contents| - 1]);
    }
  }

  /**
   * `extractAllMessageText`: every string content and every text part, skipping missing content,
   * joined with a space.
   */
  method ExtractAllMessageText(contents: seq<Option<Content>>) returns (r: string)
    ensures r == Join(AllTexts(contents), " ")
  {
    var parts: seq<string> := [];
    var i := 0;
    while i < |contents|
      invariant 0 <= i <= |contents|
      invariant parts == AllTexts(contents[..i])
    {
      assert contents[..i + 1][..i] == contents[..i];
      var content := contents[i];
      if content.Some? {
        match content.value {
          case Text(s) =>
            parts := parts + [s];
          case Parts(items) =>
            var j := 0;
            ghost var before := parts;
            while j < |items|
              invariant 0 <= j <= |items|
              invariant parts == before + TextsOf(items[..j])
            {
              assert items[..j + 1][..j] == items[..j];
              if items[j].TextPart? {
                parts := parts + [items[j].text];
              }
              j := j + 1;
            }
            assert items[..|items|] == items;
        }
      }
      i := i + 1;
    }
    assert contents[..|contents|] == contents;
    r := Join(parts, " ");
  }

  /** The image-part rewrite: an `image_url` part keeps only its url; every other part is unchanged. */
  function StripDetail(p: Part): Part
  {
    if p.ImagePart? then ImagePart(p.url, None) else p
  }

  /** A message the single-pass check treats as carrying an image: array content with an image url. */
  predicate HasImage(m: Message, imageOf: seq<Part> -> Option<string>)
  {
    m.content.Parts? && Truthy(imageOf(m.content.parts))
  }

  /** One message of the single pass: rebuilt with stripped image parts when it carries an image. */
  function ProcessMessage(m: Message, imageOf: seq<Part> -> Option<string>): (r: Message)
    ensures !HasImage(m, imageOf) ==> r == m
    ensures HasImage(m, imageOf) ==>
      r.role == m.role && r.name == m.name && r.content.Parts? &&
      |r.content.parts| == |m.content.parts| &&
      forall j :: 0 <= j < |m.content.parts| ==> r.content.parts[j] == StripDetail(m.content.parts[j])
  {
    if HasImage(m, imageOf) then
      Message(m.role, Parts(seq(|m.content.parts|, j requires 0 <= j < |m.content.parts| => StripDetail(m.content.parts[j]))), m.name)
    else m
  }

  datatype ImageCheck = ImageCheck(processedMessages: seq<Message>, hasImages: bool)

  /**
   * `processMessagesWithImageCheck`: one pass that rewrites image parts of the messages that carry
   * an image and reports whether any message does.
   */
  function ProcessMessagesWithImageCheck(messages: seq<Message>, imageOf: seq<Part> -> Option<string>): (r: ImageCheck)
    ensures |r.processedMessages| == |messages|
    ensures forall i :: 0 <= i < |messages| ==> r.processedMessages[i] == ProcessMessage(messages[i], imageOf)
    ensures r.hasImages <==> exists i :: 0 <= i < |messages| && HasImage(messages[i], imageOf)
  {
    if |messages| == 0 then ImageCheck([], false)
    else
      var rest := ProcessMessagesWithImageCheck(messages[1..], imageOf);
      assert forall i :: 1 <= i < |messages| ==> messages[i] == messages[1..][i - 1];
      ImageCheck([ProcessMessage(messages[0], imageOf)] + rest.processedMessages,
                 HasImage(messages[0], imageOf) || rest.hasImages)
  }

  /** `processMessages`: the rewritten messages of the single pass, without the flag. */
  function ProcessMessages(messages: seq<Message>, imageOf: seq<Part> -> Option<string>): (r: seq<Message>)
    ensures |r| == |messages|
    ensures forall i :: 0 <= i < |messages| ==> r[i] == ProcessMessage(messages[i], imageOf)
  {
    ProcessMessagesWithImageCheck(messages, imageOf).processedMessages
  }

  /** An `image_url` part whose url is truthy. */
  predicate IsUrlImage(p: Part)
  {
    p.ImagePart? && p.url != ""
  }

  predicate HasUrlImage(m: Message)
  {
    m.content.Parts? && exists j :: 0 <= j < |m.content.parts| && IsUrlImage(m.content.parts[j])
  }

  /** `checkForImages`: whether some array-content message has an image part with a url. */
  method CheckForImages(messages: seq<Message>) returns (r: bool)
    ensures r <==> exists i :: 0 <= i < |messages| && HasUrlImage(messages[i])
  {
    var i := 0;
    while i < |messages|
      invariant 0 <= i <= |messages|
      invariant forall k :: 0 <= k < i ==> !HasUrlImage(messages[k])
    {
      if messages[i].content.Parts? {
        var items := messages[i].content.parts;
        var j := 0;
        while j < |items|
          invariant 0 <= j <= |items|
          invariant forall k :: 0 <= k < j ==> !IsUrlImage(items[k])
        {
          if items[j].ImagePart? && items[j].url != "" {
            return true;
          }
          j := j + 1;
        }
      }
      i := i + 1;
    }
    return false;
  }
}
