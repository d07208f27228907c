/** One syndication entry and what the collection loop of get_recent_news does with it:
    resolve its timestamp, test it against the 24-hour window, and either skip it,
    serialise it into a four-line snippet, or raise inside the per-URL try block. */
module NewsEntries {

  datatype Option<T> = None | Some(value: T)

  /** A parsed time field as the feed library delivers it: whole seconds since the Unix
      epoch in UTC (the source keeps only the first six struct fields), or a struct that
      the datetime constructor rejects with an exception. */
  datatype Stamp = At(seconds: int) | OutOfRange

  /** A feed entry. An absent or falsy timestamp is `None`. An absent title, link or
      summary is `None`, and a present one is `Some`, even when it is empty. */
  datatype Entry = Entry(
    published: Option<Stamp>,
    updated: Option<Stamp>,
    title: Option<string>,
    link: Option<string>,
    summary: Option<string>)

  /** The effect of one iteration of the entry loop. */
  datatype Step = Skip | Emit(snippet: string) | Raise

  /** `datetime.now` has microsecond resolution, entry times have second resolution. */
  const MicrosPerSecond: int := 1_000_000
  const DayMicros: int := 86_400 * MicrosPerSecond

  /** `now - timedelta(days=1)`, with `now` in microseconds since the epoch. */
  function WindowStart(nowMicros: int): int {
    nowMicros - DayMicros
  }

  /** The primary timestamp, or the fallback one when the primary is absent or falsy. */
  function ResolveDate(e: Entry): (r: Option<Stamp>)
    ensures e.published.Some? ==> r == e.published
    ensures e.published.None? ==> r == e.updated
    ensures r.None? <==> e.published.None? && e.updated.None?
  {
    if e.published.Some? then e.published else e.updated
  }

  /** `entry.get(key, fallback)`. */
  function OrDefault(o: Option<string>, fallback: string): string {
    match o
    case Some(v) => v
    case None => fallback
  }

  const NoTitle: string := "Kein Titel"
  const NoLink: string := "Kein Link"
  const NoSummary: string := "Keine Zusammenfassung"
  /** Forty dashes ending every snippet. */
  const Separator: string := "----------------------------------------"

  const CategoryTag: string := "[KATEGORIE]: "
  const TitleTag: string := "[TITEL]: "
  const LinkTag: string := "[LINK]: "
  const SummaryTag: string := "[ZUSAMMENFASSUNG]: "

  /** One tagged line of a snippet. */
  function Line(tag: string, value: string): string {
    tag + value + "\n"
  }

  /** The rule and blank line that close every snippet. */
  const Closing: string := Separator + "\n\n"

  /** The fixed characters of a snippet: four tags, four line breaks and the closing rule. */
  const LayoutLength: int := |CategoryTag| + |TitleTag| + |LinkTag| + |SummaryTag| + 4 + |Closing|

  /** The four-line record of one admitted entry. It opens with the category line,
      closes with the forty-dash rule and a blank line, and holds nothing but the four
      fields and the fixed layout. */
  function Snippet(category: string, title: string, link: string, summary: string): (s: string)
    ensures |s| == LayoutLength + |category| + |title| + |link| + |summary|
    ensures s[..|CategoryTag| + |category| + 1] == CategoryTag + category + "\n"
    ensures s[|s| - |Closing|..] == Closing
  {
    Line(CategoryTag, category) + Line(TitleTag, title) + Line(LinkTag, link) + Line(SummaryTag, summary) + Closing
  }

  /** One iteration of the entry loop against the window start (microseconds). The
      timestamp conversion raises on an unrepresentable struct; an admitted entry without
      a title raises at the direct attribute access that precedes the defaulted lookups. */
  function ProcessEntry(category: string, e: Entry, windowStart: int): (r: Step)
    ensures r.Emit? <==>
      (ResolveDate(e).Some? && ResolveDate(e).value.At? &&
       ResolveDate(e).value.seconds * MicrosPerSecond > windowStart && e.title.Some?)
    ensures r.Emit? ==>
      r.snippet == Snippet(category, e.title.value, OrDefault(e.link, NoLink), OrDefault(e.summary, NoSummary))
    ensures r.Raise? <==>
      (ResolveDate(e) == Some(OutOfRange) ||
       (ResolveDate(e).Some? && ResolveDate(e).value.At? &&
        ResolveDate(e).value.seconds * MicrosPerSecond > windowStart && e.title.None?))
  {
    match ResolveDate(e)
    case None => Skip
    case Some(OutOfRange) => Raise
    case Some(At(s)) =>
      if s * MicrosPerSecond <= windowStart then Skip
      else if e.title.None? then Raise
      else Emit(Snippet(category, e.title.value, OrDefault(e.link, NoLink), OrDefault(e.summary, NoSummary)))
  }

  /** Whether the iteration over `e` completes without an exception. */
  predicate Completes(category: string, e: Entry, windowStart: int) {
    !ProcessEntry(category, e, windowStart).Raise?
  }

  // ---------------------------------------------------------------------------
  // Admission

  /** Admission stated against the clock: a dated, titled entry yields a snippet exactly
      when its time is strictly later than one day before the clock reading. */
  lemma AdmissionAgainstClock(category: string, e: Entry, nowMicros: int)
    requires e.title.Some? && ResolveDate(e).Some? && ResolveDate(e).value.At?
    ensures ProcessEntry(category, e, WindowStart(nowMicros)).Emit? <==>
      ResolveDate(e).value.seconds * 1_000_000 > nowMicros - 86_400_000_000
  {
  }

  /** An entry exactly one day old at `now` is not admitted. */
  lemma ExactlyOneDayOldIsExcluded(category: string, e: Entry, nowMicros: int)
    requires ResolveDate(e).Some? && ResolveDate(e).value.At?
    requires ResolveDate(e).value.seconds * MicrosPerSecond == nowMicros - DayMicros
    ensures ProcessEntry(category, e, WindowStart(nowMicros)) == Skip
  {
  }

  /** An entry with neither timestamp is skipped, whatever the window. */
  lemma UndatedIsSkipped(category: string, e: Entry, windowStart: int)
    requires e.published.None? && e.updated.None?
    ensures ProcessEntry(category, e, windowStart) == Skip
  {
  }

  /** When the primary timestamp is present the fallback one has no influence. */
  lemma FallbackIgnoredWhenPublished(category: string, e: Entry, u: Option<Stamp>, windowStart: int)
    requires e.published.Some?
    ensures ProcessEntry(category, e.(updated := u), windowStart) == ProcessEntry(category, e, windowStart)
  {
  }

  /** Without a primary timestamp the entry is judged by the fallback one as if it were
      the primary one. */
  lemma FallbackActsAsPublished(category: string, e: Entry, windowStart: int)
    requires e.published.None?
    ensures ProcessEntry(category, e, windowStart) ==
      ProcessEntry(category, e.(published := e.updated, updated := None), windowStart)
  {
  }

  /** An entry whose timestamp conversion fails raises, whatever its other fields. */
  lemma UnrepresentableTimeRaises(category: string, e: Entry, windowStart: int)
    requires ResolveDate(e) == Some(OutOfRange)
    ensures ProcessEntry(category, e, windowStart) == Raise
  {
  }

  /** As written: an admitted entry without a title raises instead of using the
      "Kein Titel" default, which is therefore never used. */
  lemma TitlelessRecentEntryRaises(category: string, e: Entry, windowStart: int)
    requires ResolveDate(e).Some? && ResolveDate(e).value.At?
    requires ResolveDate(e).value.seconds * MicrosPerSecond > windowStart
    requires e.title.None?
    ensures ProcessEntry(category, e, windowStart) == Raise
    ensures forall t: string :: ProcessEntry(category, e, windowStart) != Emit(t)
  {
  }

  /** The evidently intended step: a missing title takes the "Kein Titel" default. */
  function ProcessEntryIntended(category: string, e: Entry, windowStart: int): (r: Step)
    ensures !r.Raise? <==> ResolveDate(e) != Some(OutOfRange)
    ensures r == ProcessEntry(category, e.(title := Some(OrDefault(e.title, NoTitle))), windowStart)
  {
    match ResolveDate(e)
    case None => Skip
    case Some(OutOfRange) => Raise
    case Some(At(s)) =>
      if s * MicrosPerSecond <= windowStart then Skip
      else Emit(Snippet(category, OrDefault(e.title, NoTitle), OrDefault(e.link, NoLink), OrDefault(e.summary, NoSummary)))
  }

  /** With the intended step only an unrepresentable timestamp raises, and a titleless
      recent entry is serialised with the "Kein Titel" default. */
  lemma IntendedTitlelessEntryIsKept(category: string, e: Entry, windowStart: int)
    requires ResolveDate(e).Some? && ResolveDate(e).value.At?
    requires ResolveDate(e).value.seconds * MicrosPerSecond > windowStart
    requires e.title.None?
    ensures ProcessEntryIntended(category, e, windowStart) ==
      Emit(Snippet(category, NoTitle, OrDefault(e.link, NoLink), OrDefault(e.summary, NoSummary)))
  {
  }

  // ---------------------------------------------------------------------------
  // Snippet layout

  /** A field without a line break. */
  predicate SingleLine(s: string) {
    '\n' !in s
  }

  /** In a single-line value followed by a line break, that break is the first one. */
  lemma FirstBreak(a: string, x: string)
    requires SingleLine(a)
    ensures (a + "\n" + x)[|a|] == '\n'
    ensures forall i :: 0 <= i < |a| ==> (a + "\n" + x)[i] != '\n'
  {
  }

  /** A tagged single-line value is recovered from the text it starts. */
  lemma LineSplit(tag: string, a: string, x: string, b: string, y: string)
    requires SingleLine(a) && SingleLine(b)
    requires Line(tag, a) + x == Line(tag, b) + y
    ensures a == b && x == y
  {
    var s := Line(tag, a) + x;
    var u := a + "\n" + x;
    var v := b + "\n" + y;
    assert s == tag + u;
    assert s == tag + v;
    assert u == s[|tag|..] == v;
    FirstBreak(a, x);
    FirstBreak(b, y);
    assert |a| == |b|;
    assert a == u[..|a|] && b == v[..|b|];
    assert x == u[|a| + 1..] && y == v[|b| + 1..];
  }

  /** The value of a tagged line is recovered from a text that ends with a known suffix. */
  lemma LastLineSplit(tag: string, a: string, b: string, z: string)
    requires Line(tag, a) + z == Line(tag, b) + z
    ensures a == b
  {
    var u := Line(tag, a) + z;
    assert |a| == |b|;
    assert a == u[|tag|..|tag| + |a|];
    assert b == u[|tag|..|tag| + |b|];
  }

  /** The snippet read line by line, from the front. */
  lemma SnippetLines(c: string, t: string, l: string, s: string)
    ensures Snippet(c, t, l, s) ==
      Line(CategoryTag, c) + (Line(TitleTag, t) + (Line(LinkTag, l) + (Line(SummaryTag, s) + Closing)))
  {
  }

  /** A snippet determines its four fields when the category, title and link are single
      lines (the summary is delimited by the fixed closing rule). */
  lemma SnippetInjective(c: string, t: string, l: string, s: string, c': string, t': string, l': string, s': string)
    requires SingleLine(c) && SingleLine(t) && SingleLine(l)
    requires SingleLine(c') && SingleLine(t') && SingleLine(l')
    requires Snippet(c, t, l, s) == Snippet(c', t', l', s')
    ensures c == c' && t == t' && l == l' && s == s'
  {
    var p1 := Line(SummaryTag, s) + Closing;
    var p2 := Line(SummaryTag, s') + Closing;
    var q1 := Line(LinkTag, l) + p1;
    var q2 := Line(LinkTag, l') + p2;
    var r1 := Line(TitleTag, t) + q1;
    var r2 := Line(TitleTag, t') + q2;
    SnippetLines(c, t, l, s);
    SnippetLines(c', t', l', s');
    LineSplit(CategoryTag, c, r1, c', r2);
    LineSplit(TitleTag, t, q1, t', q2);
    LineSplit(LinkTag, l, p1, l', p2);
    LastLineSplit(SummaryTag, s, s', Closing);
  }

  /** Every snippet has at least its fixed layout, so it is never empty. */
  lemma SnippetNonEmpty(category: string, e: Entry, windowStart: int)
    requires ProcessEntry(category, e, windowStart).Emit?
    ensures |ProcessEntry(category, e, windowStart).snippet| >= LayoutLength
  {
  }
}
