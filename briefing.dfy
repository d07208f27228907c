/** The main guard: collect, summarise, put the dated header in front and send. The
    clock reading for the window and the formatted local date are inputs. */
module Briefing {
  import opened NewsEntries
  import opened NewsCollector
  import opened Summarizer
  import opened TelegramSender

  const HeaderLead: string := "🤖 *Dein AI-Briefing für "

  /** The bold first line of the message, for an already formatted date. */
  function Header(date: string): string {
    HeaderLead + date + "*"
  }

  /** The outgoing message: header, a blank line, then the summary. */
  function FinalMessage(date: string, summary: string): (m: string)
    ensures |m| == |Header(date)| + 2 + |summary|
    ensures m[..|Header(date)| + 2] == Header(date) + "\n\n"
    ensures m[|Header(date)| + 2..] == summary
  {
    Header(date) + "\n\n" + summary
  }

  /** Reading a message back: the summary behind the header of the given date, if the
      message starts with that header. */
  function SummaryOf(date: string, message: string): Option<string> {
    var n := |Header(date)| + 2;
    if |message| >= n && message[..n] == Header(date) + "\n\n" then Some(message[n..]) else None
  }

  /** The header is 25 characters plus the date. */
  lemma HeaderLength(date: string)
    ensures |Header(date)| == 25 + |date|
  {
  }

  /** The summary is recovered from the message: it is the message's exact suffix. */
  lemma SummaryOfFinalMessage(date: string, summary: string)
    ensures SummaryOf(date, FinalMessage(date, summary)) == Some(summary)
  {
  }

  /** A message with the right header is rebuilt from the summary read back. */
  lemma FinalMessageOfSummary(date: string, message: string)
    requires SummaryOf(date, message).Some?
    ensures FinalMessage(date, SummaryOf(date, message).value) == message
  {
    var n := |Header(date)| + 2;
    assert message == message[..n] + message[n..];
  }

  /** Different summaries give different messages on the same day. */
  lemma FinalMessageInjective(date: string, a: string, b: string)
    requires FinalMessage(date, a) == FinalMessage(date, b)
    ensures a == b
  {
    SummaryOfFinalMessage(date, a);
    SummaryOfFinalMessage(date, b);
  }

  /** The text that reaches the chat, as a function of what the run observes. */
  function Delivered(categories: seq<Category>, nowMicros: int, date: string, reply: ServiceReply): string {
    var raw := Join(AllSnippets(categories, WindowStart(nowMicros)));
    Truncated(FinalMessage(date, SummarizeWithGemini(raw, reply).text))
  }

  /** One run of the script: `nowMicros` is the clock reading of the collection step,
      `date` the local date the script formats from its second clock reading, and
      `reply` what the service would answer. */
  method RunBriefing(categories: seq<Category>, nowMicros: int, date: string, reply: ServiceReply, chatId: string)
    returns (payload: Payload)
    ensures payload.text == Delivered(categories, nowMicros, date, reply)
    ensures payload.chatId == chatId && payload.parseMode == ParseMode && payload.disableWebPagePreview
  {
    var rawNews := GetRecentNews(categories, nowMicros);
    var summary := SummarizeWithGemini(rawNews, reply);
    var finalMessage := FinalMessage(date, summary.text);
    payload := SendToTelegram(chatId, finalMessage);
  }

  /** A quiet day: when no entry is admitted the service is not contacted, and for any
      date of reasonable length the fixed sentence is sent whole under the header. */
  lemma QuietDayMessage(categories: seq<Category>, nowMicros: int, date: string, reply: ServiceReply)
    requires NothingAdmitted(categories, WindowStart(nowMicros))
    requires |date| <= 1000
    ensures !SummarizeWithGemini(Join(AllSnippets(categories, WindowStart(nowMicros))), reply).serviceCalled
    ensures Delivered(categories, nowMicros, date, reply) == FinalMessage(date, NoNewsSentence)
  {
    NothingAdmittedGivesEmptyText(categories, WindowStart(nowMicros));
    HeaderLength(date);
    assert |NoNewsSentence| == 41;
  }

  /** A message within the limit arrives whole, so the summary can be read back from
      what is sent. */
  lemma ShortMessageArrivesWhole(categories: seq<Category>, nowMicros: int, date: string, reply: ServiceReply)
    requires var raw := Join(AllSnippets(categories, WindowStart(nowMicros)));
      |FinalMessage(date, SummarizeWithGemini(raw, reply).text)| <= MaxLength
    ensures var raw := Join(AllSnippets(categories, WindowStart(nowMicros)));
      SummaryOf(date, Delivered(categories, nowMicros, date, reply)) == Some(SummarizeWithGemini(raw, reply).text)
  {
    var raw := Join(AllSnippets(categories, WindowStart(nowMicros)));
    SummaryOfFinalMessage(date, SummarizeWithGemini(raw, reply).text);
  }

  /** However long the summary, the header survives the cut when the date is short
      enough, and the sent text stays within 4114 characters. */
  lemma HeaderSurvivesTruncation(date: string, summary: string)
    requires |date| <= 1000
    ensures var sent := Truncated(FinalMessage(date, summary));
      |sent| <= 4114 && |sent| >= |Header(date)| + 2 && sent[..|Header(date)| + 2] == Header(date) + "\n\n"
  {
    HeaderLength(date);
    MarkerLength();
    var m := FinalMessage(date, summary);
    var n := |Header(date)| + 2;
    if |m| > MaxLength {
      var sent := Truncated(m);
      assert sent[..n] == sent[..KeptPrefix][..n] == m[..KeptPrefix][..n] == m[..n];
    }
  }
}
