/** summarize_with_gemini: an empty raw text short-circuits to a fixed sentence without
    contacting the text-generation service; otherwise the service's reply, or the text of
    the exception it raised, becomes the summary. */
module Summarizer {

  /** What the service call produced: the reply's text, or the message of an exception
      raised while configuring, calling or reading the reply. */
  datatype ServiceReply = Replied(text: string) | Failed(error: string)

  /** The summary text and whether the service was contacted for it. */
  datatype Summary = Summary(text: string, serviceCalled: bool)

  const NoNewsSentence: string := "Es gab heute keine nennenswerten AI-News."
  const ErrorPrefix: string := "Fehler bei der Erstellung der Zusammenfassung: "

  /** `reply` stands for what the service would answer if it were called. */
  function SummarizeWithGemini(rawText: string, reply: ServiceReply): (r: Summary)
    ensures r.serviceCalled <==> rawText != ""
    ensures rawText == "" ==> r.text == NoNewsSentence
    ensures rawText != "" && reply.Replied? ==> r.text == reply.text
    ensures rawText != "" && reply.Failed? ==>
      |r.text| >= |ErrorPrefix| && r.text[..|ErrorPrefix|] == ErrorPrefix && r.text[|ErrorPrefix|..] == reply.error
  {
    if rawText == "" then Summary(NoNewsSentence, false)
    else
      match reply
      case Replied(t) => Summary(t, true)
      case Failed(e) => Summary(ErrorPrefix + e, true)
  }

  /** With empty input the outcome does not depend on the service at all. */
  lemma EmptyInputIgnoresService(a: ServiceReply, b: ServiceReply)
    ensures SummarizeWithGemini("", a) == SummarizeWithGemini("", b) == Summary(NoNewsSentence, false)
  {
  }

  /** A failing service never stops the run: some summary text is always produced, and
      the error text is attached to a fixed prefix. */
  lemma ServiceFailureIsReported(rawText: string, error: string)
    requires rawText != ""
    ensures SummarizeWithGemini(rawText, Failed(error)).text == ErrorPrefix + error
    ensures |SummarizeWithGemini(rawText, Failed(error)).text| == |ErrorPrefix| + |error|
  {
  }
}
