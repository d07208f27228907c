# AI news briefing: verified model of the collection, summary and send steps

The script collects the entries of the last 24 hours from a configured set of feeds,
grouped by category. It serialises each entry into a four-line record and joins the
records. It asks a text-generation service to summarise that raw text. It puts a dated
header in front of the summary, shortens the message if it is over the chat limit, and
posts it to a Telegram chat. This project models the deterministic part of that run in
Dafny and proves its properties:

- `NewsEntries` (news_entries.dfy) models one entry of a feed. Its timestamp comes from
  `published`, or from `updated` when `published` is absent or falsy. The entry is compared with
  the window start, and the loop iteration for it skips it, emits its snippet or raises.
  The module also gives the exact snippet layout.
- `NewsCollector` (news_collector.dfy) models `get_recent_news`. It is imperative, as in
  the script. `GetRecentNews` loops over the categories, `CollectCategory` over a
  category's URLs (each in its own `try`), and `CollectFeed` over a feed's entries. The
  entry loop stops at the first exception and keeps what it had appended. The three
  methods are proved against recursive specification functions (`FeedSnippets`,
  `SourcesSnippets`, `AllSnippets`, `Join`). Lemmas about those functions state the
  ordering, tail-cut, containment and empty-result properties.
- `Summarizer` (summarizer.dfy) models `summarize_with_gemini`. Empty raw text gives
  the fixed sentence and the service is never called. Otherwise the service's reply or
  error decides the text, and that reply or error is an input.
- `TelegramSender` (telegram_sender.dfy) models the length guard of `send_to_telegram`
  and the form payload that it posts.
- `Briefing` (briefing.dfy) models the final message of line 223 and its inverse. It
  also models the main guard as one method, `RunBriefing`.

The inputs stand in for what the script reads from the outside. Each URL's fetch result
is a `Source`: either the parse call raised, or it delivered a list of entries. The clock
reading `nowMicros` is in microseconds since the epoch, because `datetime.now` has
microsecond resolution. Entry times are whole seconds, because the script keeps only the
first six fields of the parsed time. An entry is admitted when `seconds * 1_000_000 >
now - 86_400_000_000`. The formatted local date and the service's reply are opaque
strings. A timestamp that is absent or falsy is `None`. A title, link or summary is
`None` only when it is absent: a present empty one is `Some("")`, because the script
reads it with a defaulted lookup, which returns the empty string unchanged.

Three exception points are modelled inside each URL's `try`:
- the fetch itself raises (`Source.FetchFailed`);
- the timestamp struct cannot be turned into a datetime (`Stamp.OutOfRange`);
- an admitted entry has no title, because the log line reads `entry.title` directly and
  the feed library's entry dictionary raises `AttributeError` for a missing key.

## Model

| member | source | states |
|---|---|---|
| NewsEntries.AdmissionAgainstClock | main.py:70-71 | a dated, titled entry is admitted iff its time in microseconds is strictly greater than the clock reading minus 86 400 000 000 microseconds (one day) |
| NewsEntries.ResolveDate | main.py:84-89 | the entry's time is `published` when present and truthy, otherwise `updated`; it is absent exactly when both are |
| NewsEntries.ProcessEntry | main.py:84-105 | an entry yields a snippet iff its resolved time exists, is representable, is strictly after the window start and it has a title; the snippet carries its title, link or "Kein Link", summary or "Keine Zusammenfassung"; it raises iff its time is unrepresentable or it is admitted without a title |
| NewsEntries.ExactlyOneDayOldIsExcluded | main.py:91 | an entry exactly 24 hours old is skipped (strict comparison) |
| NewsEntries.UndatedIsSkipped | main.py:84-91 | an entry with neither timestamp is skipped, whatever the window |
| NewsEntries.FallbackIgnoredWhenPublished | main.py:85-89 | when `published` is present, changing `updated` changes nothing |
| NewsEntries.FallbackActsAsPublished | main.py:87-89 | without `published`, the entry is judged by `updated` exactly as if it were `published` |
| NewsEntries.UnrepresentableTimeRaises | main.py:86-89 | a resolved time the datetime constructor rejects raises, whatever the other fields |
| NewsEntries.TitlelessRecentEntryRaises | main.py:92-94 | as written, an admitted entry without a title raises and never yields a snippet |
| NewsEntries.ProcessEntryIntended | main.py:94 | the evidently intended step raises only on an unrepresentable time, and equals the as-written step on the entry with its title defaulted to "Kein Titel" |
| NewsEntries.IntendedTitlelessEntryIsKept | main.py:94 | with the intended step, a recent titleless entry is serialised under "Kein Titel" |
| NewsEntries.Snippet | main.py:98-104 | a snippet is the four fields plus 95 fixed characters, opens with the category line and closes with 40 dashes and a blank line |
| NewsEntries.SnippetInjective | main.py:98-104 | a snippet determines its category, title, link and summary when the first three are single lines |
| NewsEntries.SnippetNonEmpty | main.py:98-104 | every snippet is at least 95 characters long |
| NewsCollector.GetRecentNews | main.py:66-111 | the returned text is the join of the snippets of all categories in order, for the window one day before the clock reading; it never raises |
| NewsCollector.CollectCategory | main.py:79-108 | appends the snippets of the category's sources in URL order to what was already collected |
| NewsCollector.CollectFeed | main.py:83-105 | appends the feed's snippets in entry order, stopping at the first raising entry and keeping what it appended before it |
| NewsCollector.FeedSnippetsAppend | main.py:83-105 | a feed whose first part completes without exception contributes that part's snippets followed by the rest's |
| NewsCollector.SourcesSnippetsAppend | main.py:79-108 | sources contribute one after another: the snippets of concatenated URL lists are concatenated |
| NewsCollector.AllSnippetsAppend | main.py:77-108 | categories contribute one after another in configuration order |
| NewsCollector.JoinAppend | main.py:111 | joining distributes over concatenation of the snippet list |
| NewsCollector.EveryAdmittedEntryKept | main.py:83-105 | if every entry is admitted, the feed yields exactly one snippet per entry, position by position: nothing reordered or deduplicated |
| NewsCollector.FeedSnippetOrigin | main.py:83-105 | every snippet of a feed is the snippet that some entry of that feed emits |
| NewsCollector.TailCut | main.py:80-108 | when an entry raises, the snippets of the entries before it are kept and the entries after it, whatever they are, are dropped |
| NewsCollector.FetchFailureSkipsSource | main.py:80-108 | a URL whose fetch raised contributes nothing and the URLs around it are processed as if it were absent |
| NewsCollector.RaiseIsContainedInSource | main.py:80-108 | an entry raising in one URL keeps everything before it, drops only that URL's later entries, and leaves all later URLs untouched |
| NewsCollector.NothingAdmittedGivesEmptyText | main.py:111 | when no entry anywhere is admitted, no snippet is collected and the text is the empty string |
| NewsCollector.EmptyTextIffNoSnippet | main.py:111 | the collected text is empty exactly when no snippet was collected |
| Summarizer.SummarizeWithGemini | main.py:116-162 | empty raw text gives "Es gab heute keine nennenswerten AI-News." and the service is called iff the text is non-empty; otherwise the reply text, or the error prefix followed by the error |
| Summarizer.EmptyInputIgnoresService | main.py:120-122 | for empty input the result is the same whatever the service would answer |
| Summarizer.ServiceFailureIsReported | main.py:160-162 | a service error becomes the fixed error prefix followed by the error text |
| TelegramSender.Truncated | main.py:174-177 | a message of at most 4096 characters is unchanged; a longer one keeps its first 4090 characters, then the marker, 4114 characters in all |
| TelegramSender.SendToTelegram | main.py:167-184 | the posted payload carries the chat id, the guarded text, Markdown mode and previews off |
| TelegramSender.MarkerLength | main.py:177 | the truncation marker is 24 code points |
| TelegramSender.TruncationExceedsLimit | main.py:174-177 | every cut message is 4114 characters, more than the 4096 limit the guard cites |
| TelegramSender.TruncationExceedsLimitExample | main.py:175-177 | a 4097-character message leaves the guard at 4114 characters |
| TelegramSender.TruncatedIdempotent | main.py:175-177 | applying the guard to its own output changes nothing |
| TelegramSender.FitToLimit | main.py:174-177 | the intended guard never exceeds 4096 characters, keeps short messages unchanged, and keeps the longest prefix that fits with the marker |
| TelegramSender.FitToLimitIdempotent | main.py:174-177 | the intended guard is idempotent |
| Briefing.FinalMessage | main.py:223 | the message is the header, a blank line and the summary, and the summary is its exact suffix |
| Briefing.HeaderLength | main.py:223 | the header is 25 characters plus the date |
| Briefing.SummaryOfFinalMessage | main.py:223 | the summary is read back from the message it was put in |
| Briefing.FinalMessageOfSummary | main.py:223 | a message with the day's header is rebuilt from the summary read back |
| Briefing.FinalMessageInjective | main.py:223 | different summaries give different messages on the same date |
| Briefing.RunBriefing | main.py:199-225 | the payload sent is the guarded final message of the summary of the collected text, in Markdown mode |
| Briefing.QuietDayMessage | main.py:203-225 | when no entry is admitted, the service is not called and the fixed sentence is sent whole under the header |
| Briefing.ShortMessageArrivesWhole | main.py:174-177 | a final message within the limit is sent whole, so its summary is read back from what was sent |
| Briefing.HeaderSurvivesTruncation | main.py:223 | for a short date, the header and blank line survive the cut and the sent text is at most 4114 characters |

## Findings

| source | as written | input that shows it | evidently intended | confidence | as-written member | corrected member |
|---|---|---|---|---|---|---|
| main.py:92-94 | the log line reads `entry.title` before the defaulted `entry.get('title', 'Kein Titel')`, so a missing title raises and the rest of that feed is dropped | a feed whose first entry is recent and has no title | a titleless entry is serialised with "Kein Titel" and the feed goes on | medium, not executed (rests on the feed library raising `AttributeError` for a missing attribute) | NewsEntries.TitlelessRecentEntryRaises | NewsEntries.ProcessEntryIntended |
| main.py:174-177 | an overlong message keeps 4090 characters and gains a 24-character marker, 4114 in all | any message of 4097 characters | the shortened message fits the 4096-character limit the comment cites | high, not executed | TelegramSender.TruncationExceedsLimitExample | TelegramSender.FitToLimit |

`GetRecentNews` and `RunBriefing` keep the as-written behaviour of both lines, because
they model what the script does. The corrected definitions stand beside them with their
properties proved.

## Left out

- Reading the three environment variables and exiting when one is missing: process startup.
- The FEEDS table: it is configuration, so the categories and their fetch results are a parameter.
- `feedparser.parse` and its RSS/Atom handling: each URL's outcome is an input `Source`.
- The service configuration, the prompt text and `generate_content`: the service's answer is an input `ServiceReply`, and the model states only what the script does with it.
- The HTTP POST, the status-code check and the printing of the error response: `SendToTelegram` returns the payload instead of posting it.
- Loading the time zone and formatting the date with `strftime`: they depend on locale and the tz database, so the date string is an input.
- All `print` logging, including the 50-character title slice in the log line; only its attribute access matters, and that is modelled as an exception point.
- Other exceptions the feed library could raise while iterating entries are not modelled; the fetch failure, the unrepresentable time and the missing title are the modelled ones.
