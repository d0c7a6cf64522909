/** The chat bubble of the inbox (src/components/MessageBubble.tsx): which
    media tag a stored message shows, the text it shows once the media
    prefixes are removed, and who it says sent it. */
module MessageBubble {
  import opened Optional
  import opened Text
  import WhatsAppGateway

  const AudioTranscriptMark: string := "[Transcrição de Áudio]"
  const AudioMark: string := "[Áudio]"
  const AudioAnalysisMark: string := "[Análise de Áudio]"
  const ImageAnalysisMark: string := "[Análise de Imagem]"
  const ImageMark: string := "[Imagem]"
  const PdfMark: string := "[Arquivo PDF]"
  const PdfExtension: string := ".pdf"
  const Separator: string := ": "

  /** What `content?.includes(...)` gives on a missing content. */
  predicate Includes(content: Option<string>, mark: string) {
    content.Some? && Contains(content.value, mark)
  }

  predicate IsAudio(content: Option<string>) {
    Includes(content, AudioTranscriptMark) || Includes(content, AudioMark)
  }

  predicate IsImage(content: Option<string>) {
    Includes(content, ImageAnalysisMark) || Includes(content, ImageMark)
  }

  predicate IsDocument(content: Option<string>) {
    (content.Some? && Contains(ToLower(content.value), PdfExtension)) || Includes(content, PdfMark)
  }

  /** The tag above the text. */
  datatype MediaTag = TranscribedAudio | VisualMedia | PdfDocument

  /** renderMediaTag: the first of audio, image and document that applies. */
  function TagOf(content: Option<string>): Option<MediaTag> {
    if IsAudio(content) then Some(TranscribedAudio)
    else if IsImage(content) then Some(VisualMedia)
    else if IsDocument(content) then Some(PdfDocument)
    else None
  }

  /** Audio takes precedence over image and image over document; a bubble
      has a tag exactly when one of the three applies. */
  lemma TagPrecedence(content: Option<string>)
    ensures TagOf(content) == Some(TranscribedAudio) <==> IsAudio(content)
    ensures TagOf(content) == Some(VisualMedia) <==> !IsAudio(content) && IsImage(content)
    ensures TagOf(content) == Some(PdfDocument) <==> !IsAudio(content) && !IsImage(content) && IsDocument(content)
    ensures TagOf(content).None? <==> !IsAudio(content) && !IsImage(content) && !IsDocument(content)
    ensures content.None? ==> TagOf(content).None?
  {
  }

  /** The prefixes removed from the text, in the order they are removed. */
  const Prefixes: seq<string> := [AudioTranscriptMark + Separator, AudioAnalysisMark + Separator,
    ImageAnalysisMark + Separator, ImageMark + Separator, PdfMark + Separator]

  /** The chained `replace(prefix, '')`: the first occurrence of each
      prefix in turn is removed. */
  function Strip(s: string, prefixes: seq<string>): string
    decreases |prefixes|
  {
    if prefixes == [] then s else Strip(ReplaceFirst(s, prefixes[0], ""), prefixes[1..])
  }

  /** cleanContent */
  function CleanContent(content: Option<string>): Option<string> {
    if content.None? then None else Some(Strip(content.value, Prefixes))
  }

  /** Stripping never lengthens the text, and text in which no prefix
      occurs is shown unchanged. */
  lemma {:induction false} StripShortens(s: string, prefixes: seq<string>)
    ensures |Strip(s, prefixes)| <= |s|
    ensures (forall i :: 0 <= i < |prefixes| ==> !Contains(s, prefixes[i])) ==> Strip(s, prefixes) == s
    decreases |prefixes|
  {
    if prefixes != [] {
      RemoveFirstLength(s, prefixes[0]);
      StripShortens(ReplaceFirst(s, prefixes[0], ""), prefixes[1..]);
      if forall i :: 0 <= i < |prefixes| ==> !Contains(s, prefixes[i]) {
        ReplaceFirstAbsent(s, prefixes[0], "");
        assert forall i :: 0 <= i < |prefixes[1..]| ==> prefixes[1..][i] == prefixes[i + 1];
      }
    }
  }

  lemma CleanContentShortens(content: Option<string>)
    ensures CleanContent(content).Some? <==> content.Some?
    ensures content.Some? ==> |CleanContent(content).value| <= |content.value|
    ensures content.Some? && (forall i :: 0 <= i < |Prefixes| ==> !Contains(content.value, Prefixes[i])) ==>
      CleanContent(content) == content
  {
    if content.Some? {
      StripShortens(content.value, Prefixes);
    }
  }

  /** A pattern that starts with '[' does not occur in a prefix followed by
      x when it does not occur in x, the prefix has no other '[' and the
      two differ at position k. */
  lemma AbsentAfterPrefix(prefix: string, x: string, pat: string, k: nat)
    requires |pat| > 0 && pat[0] == '['
    requires forall j :: 0 < j < |prefix| ==> prefix[j] != '['
    requires k < |prefix| && k < |pat| && prefix[k] != pat[k]
    requires !Contains(x, pat)
    ensures !Contains(prefix + x, pat)
  {
    var s := prefix + x;
    if Contains(s, pat) {
      var j := IndexOf(s, pat).value;
      if j >= |prefix| {
        var m := j - |prefix|;
        forall i | 0 <= i < |pat|
          ensures x[m..m + |pat|][i] == pat[i]
        {
          assert x[m..m + |pat|][i] == s[j + i] == s[j..j + |pat|][i];
        }
        assert x[m..m + |pat|] == pat;
        ContainsAt(x, pat, m);
      }
    }
  }

  /** No prefix or media mark occurs in the text. */
  predicate Plain(x: string) {
    && (forall i :: 0 <= i < |Prefixes| ==> !Contains(x, Prefixes[i]))
    && !Contains(x, AudioTranscriptMark) && !Contains(x, AudioMark)
  }

  /** An image description stored by the WhatsApp webhook is shown with
      the image tag, when the description itself carries no prefix or
      audio mark. */
  lemma StoredImageTagged(description: string)
    requires Plain(description)
    ensures TagOf(Some(WhatsAppGateway.ImagePrefix + description)) == Some(VisualMedia)
  {
    var s := WhatsAppGateway.ImagePrefix + description;
    ImagePrefixAbsences(description);
    ContainsLeft(ImageMark, Separator + description);
    assert ImageMark + (Separator + description) == s;
  }

  /** ... and without its prefix. Only the first "[Imagem]: " goes: a
      doubled prefix leaves one. */
  lemma StoredImageCleaned(description: string)
    requires Plain(description)
    ensures CleanContent(Some(WhatsAppGateway.ImagePrefix + description)) == Some(description)
    ensures CleanContent(Some(WhatsAppGateway.ImagePrefix + WhatsAppGateway.ImagePrefix + description))
            == Some(WhatsAppGateway.ImagePrefix + description)
  {
    var s := WhatsAppGateway.ImagePrefix + description;
    ImagePrefixAbsences(description);
    StripImage(description);
    ImagePrefixAbsences(s);
    StripImage(s);
    assert WhatsAppGateway.ImagePrefix + WhatsAppGateway.ImagePrefix + description == WhatsAppGateway.ImagePrefix + s;
  }

  /** The marks and prefixes other than the image prefix are absent from
      the image prefix followed by plain text. */
  lemma ImagePrefixAbsences(x: string)
    requires !Contains(x, Prefixes[0]) && !Contains(x, Prefixes[1]) && !Contains(x, Prefixes[2]) && !Contains(x, Prefixes[4])
    requires !Contains(x, AudioTranscriptMark) && !Contains(x, AudioMark)
    ensures var s := WhatsAppGateway.ImagePrefix + x;
      && !Contains(s, Prefixes[0]) && !Contains(s, Prefixes[1]) && !Contains(s, Prefixes[2]) && !Contains(s, Prefixes[4])
      && !Contains(s, AudioTranscriptMark) && !Contains(s, AudioMark)
  {
    var p := WhatsAppGateway.ImagePrefix;
    assert forall j :: 0 < j < |p| ==> p[j] != '[';
    assert p[1] == 'I';
    AbsentAfterPrefix(p, x, Prefixes[0], 1);
    AbsentAfterPrefix(p, x, Prefixes[1], 1);
    AbsentAfterPrefix(p, x, Prefixes[2], 1);
    AbsentAfterPrefix(p, x, Prefixes[4], 1);
    AbsentAfterPrefix(p, x, AudioTranscriptMark, 1);
    AbsentAfterPrefix(p, x, AudioMark, 1);
  }

  /** Stripping the image prefix followed by text in which the other four
      prefixes do not occur leaves that text. */
  lemma StripImage(x: string)
    requires !Contains(WhatsAppGateway.ImagePrefix + x, Prefixes[0])
    requires !Contains(WhatsAppGateway.ImagePrefix + x, Prefixes[1])
    requires !Contains(WhatsAppGateway.ImagePrefix + x, Prefixes[2])
    requires !Contains(x, Prefixes[4])
    ensures Strip(WhatsAppGateway.ImagePrefix + x, Prefixes) == x
  {
    var s := WhatsAppGateway.ImagePrefix + x;
    ReplaceFirstAbsent(s, Prefixes[0], "");
    ReplaceFirstAbsent(s, Prefixes[1], "");
    ReplaceFirstAbsent(s, Prefixes[2], "");
    assert OccursAt(s, Prefixes[3], 0);
    assert ReplaceFirst(s, Prefixes[3], "") == x;
    ReplaceFirstAbsent(x, Prefixes[4], "");
    assert Strip(s, Prefixes) == Strip(s, Prefixes[1..]);
    assert Strip(s, Prefixes[1..]) == Strip(s, Prefixes[2..]);
    assert Strip(s, Prefixes[2..]) == Strip(s, Prefixes[3..]);
    assert Strip(s, Prefixes[3..]) == Strip(x, Prefixes[4..]);
    assert Strip(x, Prefixes[4..]) == Strip(x, []);
  }

  // ---- the sender ----------------------------------------------------------

  /** `message.senderType` */
  datatype SenderType = UserSender | AiSender | OperatorSender | SystemSender

  /** The label over the text. */
  function SenderLabel(sender: SenderType): string {
    if sender == AiSender then "IA" else if sender == OperatorSender then "Você" else "Cliente"
  }

  /** The agent is labelled "IA", the operator "Você", and the customer and
      system messages "Cliente"; the three labels are distinct. */
  lemma SenderLabels(sender: SenderType)
    ensures SenderLabel(sender) == "IA" <==> sender == AiSender
    ensures SenderLabel(sender) == "Você" <==> sender == OperatorSender
    ensures SenderLabel(sender) == "Cliente" <==> sender == UserSender || sender == SystemSender
  {
  }
}
