/** The deterministic part of send_to_telegram: the length guard and the payload that is
    posted to the Bot API. */
module TelegramSender {

  /** The limit named by the comment above the guard. */
  const MaxLength: int := 4096
  /** How many characters of an overlong message are kept. */
  const KeptPrefix: int := 4090
  const TruncationMarker: string := "\n... (Nachricht gekürzt)"
  const ParseMode: string := "Markdown"

  /** The form fields of the sendMessage request. */
  datatype Payload = Payload(chatId: string, text: string, parseMode: string, disableWebPagePreview: bool)

  /** The message text after the length guard. */
  function Truncated(messageText: string): (r: string)
    ensures |messageText| <= MaxLength ==> r == messageText
    ensures |messageText| > MaxLength ==>
      |r| == KeptPrefix + |TruncationMarker| && r[..KeptPrefix] == messageText[..KeptPrefix] &&
      r[KeptPrefix..] == TruncationMarker
  {
    if |messageText| > MaxLength then messageText[..KeptPrefix] + TruncationMarker else messageText
  }

  /** The payload send_to_telegram posts: the text is cut when it is over the limit, the
      rendering mode is always Markdown and link previews are always off. The HTTP request
      and its response handling are not part of this model. */
  method SendToTelegram(chatId: string, messageText: string) returns (payload: Payload)
    ensures payload.text == Truncated(messageText)
    ensures payload.chatId == chatId && payload.parseMode == ParseMode && payload.disableWebPagePreview
  {
    var text := messageText;
    if |text| > MaxLength {
      text := text[..KeptPrefix] + TruncationMarker;
    }
    payload := Payload(chatId, text, ParseMode, true);
  }

  /** The marker is 24 code points long. */
  lemma MarkerLength()
    ensures |TruncationMarker| == 24
  {
  }

  /** As written, a cut message is 4114 characters long, 18 more than the limit the guard
      is meant to enforce; so every overlong message is still overlong after the guard. */
  lemma TruncationExceedsLimit(messageText: string)
    requires |messageText| > MaxLength
    ensures |Truncated(messageText)| == 4114
    ensures |Truncated(messageText)| > MaxLength
  {
    MarkerLength();
  }

  /** A concrete message that shows it: 4097 characters in, 4114 out. */
  lemma TruncationExceedsLimitExample()
    ensures var m := seq(4097, _ => 'a'); |Truncated(m)| == 4114 > MaxLength
  {
    TruncationExceedsLimit(seq(4097, _ => 'a'));
  }

  /** Applying the guard twice changes nothing more. */
  lemma TruncatedIdempotent(messageText: string)
    ensures Truncated(Truncated(messageText)) == Truncated(messageText)
  {
    if |messageText| > MaxLength {
      MarkerLength();
      var r := Truncated(messageText);
      assert r[..KeptPrefix] == messageText[..KeptPrefix];
      assert r == r[..KeptPrefix] + TruncationMarker;
    }
  }

  /** The evidently intended guard: keep as much of the message as fits together with the
      marker, so the result never exceeds the limit. */
  function FitToLimit(messageText: string): (r: string)
    ensures |r| <= MaxLength
    ensures |messageText| <= MaxLength ==> r == messageText
    ensures |messageText| > MaxLength ==>
      |r| == MaxLength && r[..MaxLength - |TruncationMarker|] == messageText[..MaxLength - |TruncationMarker|] &&
      r[MaxLength - |TruncationMarker|..] == TruncationMarker
  {
    MarkerLength();
    if |messageText| > MaxLength then messageText[..MaxLength - |TruncationMarker|] + TruncationMarker else messageText
  }

  /** The intended guard is idempotent as well, and its output passes it unchanged. */
  lemma FitToLimitIdempotent(messageText: string)
    ensures FitToLimit(FitToLimit(messageText)) == FitToLimit(messageText)
  {
  }
}
