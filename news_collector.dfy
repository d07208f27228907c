/** get_recent_news: walk the configured categories in order, fetch each source in order,
    serialise every admitted entry, and join the snippets. Each source's whole entry loop
    sits in its own try block, so an exception ends that source early and nothing else. */
module NewsCollector {
  import opened NewsEntries

  /** The outcome of fetching and parsing one URL: the parse call raised, or it delivered
      the feed's entries in feed order. */
  datatype Source = FetchFailed | Fetched(entries: seq<Entry>)

  /** One configured category with its sources, in configuration order. */
  datatype Category = Category(name: string, sources: seq<Source>)

  // ---------------------------------------------------------------------------
  // Specification

  /** The snippets one feed contributes: entries are taken in order until the first one
      whose iteration raises; the entries after it are never looked at. */
  function FeedSnippets(category: string, entries: seq<Entry>, windowStart: int): seq<string> {
    if entries == [] then []
    else
      match ProcessEntry(category, entries[0], windowStart)
      case Skip => FeedSnippets(category, entries[1..], windowStart)
      case Emit(s) => [s] + FeedSnippets(category, entries[1..], windowStart)
      case Raise => []
  }

  function SourceSnippets(category: string, source: Source, windowStart: int): seq<string> {
    match source
    case FetchFailed => []
    case Fetched(entries) => FeedSnippets(category, entries, windowStart)
  }

  /** The snippets of a category's sources, source after source. */
  function SourcesSnippets(category: string, sources: seq<Source>, windowStart: int): seq<string> {
    if sources == [] then []
    else SourceSnippets(category, sources[0], windowStart) + SourcesSnippets(category, sources[1..], windowStart)
  }

  /** The snippets of all categories, category after category. */
  function AllSnippets(categories: seq<Category>, windowStart: int): seq<string> {
    if categories == [] then []
    else SourcesSnippets(categories[0].name, categories[0].sources, windowStart) + AllSnippets(categories[1..], windowStart)
  }

  /** `"".join(parts)`. */
  function Join(parts: seq<string>): string {
    if parts == [] then "" else parts[0] + Join(parts[1..])
  }

  // ---------------------------------------------------------------------------
  // The collection loop

  /** The text that get_recent_news returns, for the sources as fetched and the clock
      reading `nowMicros` (microseconds since the epoch). It never raises. */
  method GetRecentNews(categories: seq<Category>, nowMicros: int) returns (text: string)
    ensures text == Join(AllSnippets(categories, WindowStart(nowMicros)))
  {
    var windowStart := WindowStart(nowMicros);
    var snippets: seq<string> := [];
    var i := 0;
    while i < |categories|
      invariant 0 <= i <= |categories|
      invariant snippets == AllSnippets(categories[..i], windowStart)
    {
      snippets := CollectCategory(categories[i], windowStart, snippets);
      AllSnippetsAppend(categories[..i], [categories[i]], windowStart);
      assert categories[..i + 1] == categories[..i] + [categories[i]];
      i := i + 1;
    }
    assert categories[..i] == categories;
    text := Join(snippets);
  }

  /** The loop over one category's URLs: each URL's fetch and entry loop runs in its own
      try block, whose handler only logs. */
  method CollectCategory(category: Category, windowStart: int, collected: seq<string>) returns (snippets: seq<string>)
    ensures snippets == collected + SourcesSnippets(category.name, category.sources, windowStart)
  {
    snippets := collected;
    var j := 0;
    while j < |category.sources|
      invariant 0 <= j <= |category.sources|
      invariant snippets == collected + SourcesSnippets(category.name, category.sources[..j], windowStart)
    {
      match category.sources[j] {
        case FetchFailed =>
        case Fetched(entries) =>
          snippets := CollectFeed(category.name, entries, windowStart, snippets);
      }
      SourcesSnippetsAppend(category.name, category.sources[..j], [category.sources[j]], windowStart);
      assert category.sources[..j + 1] == category.sources[..j] + [category.sources[j]];
      j := j + 1;
    }
    assert category.sources[..j] == category.sources;
  }

  /** The loop over one feed's entries, appending to the shared snippet list; an
      exception leaves the loop and keeps what was appended before it. */
  method CollectFeed(category: string, entries: seq<Entry>, windowStart: int, collected: seq<string>)
    returns (snippets: seq<string>)
    ensures snippets == collected + FeedSnippets(category, entries, windowStart)
  {
    snippets := collected;
    var k := 0;
    while k < |entries|
      invariant 0 <= k <= |entries|
      invariant forall m :: 0 <= m < k ==> Completes(category, entries[m], windowStart)
      invariant snippets == collected + FeedSnippets(category, entries[..k], windowStart)
    {
      FeedSnippetsAppend(category, entries[..k], [entries[k]], windowStart);
      assert entries[..k + 1] == entries[..k] + [entries[k]];
      match ProcessEntry(category, entries[k], windowStart) {
        case Skip =>
        case Emit(s) =>
          snippets := snippets + [s];
        case Raise =>
          FeedSnippetsAppend(category, entries[..k], entries[k..], windowStart);
          assert entries == entries[..k] + entries[k..];
          return;
      }
      k := k + 1;
    }
    assert entries[..k] == entries;
  }

  // ---------------------------------------------------------------------------
  // Order and composition

  /** Feeds whose entries all complete can be processed piece by piece. */
  lemma {:induction false} FeedSnippetsAppend(category: string, done: seq<Entry>, rest: seq<Entry>, windowStart: int)
    requires forall m :: 0 <= m < |done| ==> Completes(category, done[m], windowStart)
    ensures FeedSnippets(category, done + rest, windowStart) ==
      FeedSnippets(category, done, windowStart) + FeedSnippets(category, rest, windowStart)
  {
    if done == [] {
      assert done + rest == rest;
    } else {
      assert (done + rest)[0] == done[0];
      assert (done + rest)[1..] == done[1..] + rest;
      FeedSnippetsAppend(category, done[1..], rest, windowStart);
    }
  }

  /** Sources are processed one after another: the snippets of a concatenation of source
      lists are the concatenation of their snippets. */
  lemma {:induction false} SourcesSnippetsAppend(category: string, a: seq<Source>, b: seq<Source>, windowStart: int)
    ensures SourcesSnippets(category, a + b, windowStart) ==
      SourcesSnippets(category, a, windowStart) + SourcesSnippets(category, b, windowStart)
  {
    if a == [] {
      assert a + b == b;
    } else {
      assert (a + b)[0] == a[0];
      assert (a + b)[1..] == a[1..] + b;
      SourcesSnippetsAppend(category, a[1..], b, windowStart);
    }
  }

  /** Categories are processed one after another, in configuration order. */
  lemma {:induction false} AllSnippetsAppend(a: seq<Category>, b: seq<Category>, windowStart: int)
    ensures AllSnippets(a + b, windowStart) == AllSnippets(a, windowStart) + AllSnippets(b, windowStart)
  {
    if a == [] {
      assert a + b == b;
    } else {
      assert (a + b)[0] == a[0];
      assert (a + b)[1..] == a[1..] + b;
      AllSnippetsAppend(a[1..], b, windowStart);
    }
  }

  /** Joining distributes over concatenation, so the collected text is the snippets'
      texts one after another. */
  lemma {:induction false} JoinAppend(a: seq<string>, b: seq<string>)
    ensures Join(a + b) == Join(a) + Join(b)
  {
    if a == [] {
      assert a + b == b;
    } else {
      assert (a + b)[0] == a[0];
      assert (a + b)[1..] == a[1..] + b;
      JoinAppend(a[1..], b);
    }
  }

  /** When every entry of a feed is admitted, every one of them yields its own snippet, in
      feed order: nothing is reordered, merged or deduplicated. */
  lemma {:induction false} EveryAdmittedEntryKept(category: string, entries: seq<Entry>, windowStart: int)
    requires forall m :: 0 <= m < |entries| ==> ProcessEntry(category, entries[m], windowStart).Emit?
    ensures |FeedSnippets(category, entries, windowStart)| == |entries|
    ensures forall m :: 0 <= m < |entries| ==>
      FeedSnippets(category, entries, windowStart)[m] == ProcessEntry(category, entries[m], windowStart).snippet
  {
    if entries != [] {
      assert ProcessEntry(category, entries[0], windowStart).Emit?;
      EveryAdmittedEntryKept(category, entries[1..], windowStart);
      assert forall m :: 1 <= m < |entries| ==> entries[1..][m - 1] == entries[m];
    }
  }

  /** Every snippet of a feed is the snippet of one of its entries. */
  lemma {:induction false} FeedSnippetOrigin(category: string, entries: seq<Entry>, windowStart: int, n: nat)
    requires n < |FeedSnippets(category, entries, windowStart)|
    ensures exists m ::
      0 <= m < |entries| &&
      ProcessEntry(category, entries[m], windowStart) == Emit(FeedSnippets(category, entries, windowStart)[n])
  {
    var step := ProcessEntry(category, entries[0], windowStart);
    var rest := FeedSnippets(category, entries[1..], windowStart);
    if step.Emit? && n == 0 {
      assert ProcessEntry(category, entries[0], windowStart) == Emit(FeedSnippets(category, entries, windowStart)[n]);
    } else {
      var n' := if step.Emit? then n - 1 else n;
      assert FeedSnippets(category, entries, windowStart)[n] == rest[n'];
      FeedSnippetOrigin(category, entries[1..], windowStart, n');
      var m' :| 0 <= m' < |entries[1..]| && ProcessEntry(category, entries[1..][m'], windowStart) == Emit(rest[n']);
      assert entries[1..][m'] == entries[m' + 1];
    }
  }

  // ---------------------------------------------------------------------------
  // Error containment

  /** The tail cut: when an entry raises, the snippets of the entries before it are kept
      and the entries after it are dropped, whatever they are. */
  lemma TailCut(category: string, done: seq<Entry>, failing: Entry, rest: seq<Entry>, windowStart: int)
    requires forall m :: 0 <= m < |done| ==> Completes(category, done[m], windowStart)
    requires ProcessEntry(category, failing, windowStart) == Raise
    ensures FeedSnippets(category, done + [failing] + rest, windowStart) == FeedSnippets(category, done, windowStart)
  {
    assert done + [failing] + rest == done + ([failing] + rest);
    FeedSnippetsAppend(category, done, [failing] + rest, windowStart);
  }

  /** A source whose fetch raised contributes nothing; the sources before and after it
      are processed as if it were absent. */
  lemma FetchFailureSkipsSource(category: string, before: seq<Source>, after: seq<Source>, windowStart: int)
    ensures SourcesSnippets(category, before + [FetchFailed] + after, windowStart) ==
      SourcesSnippets(category, before, windowStart) + SourcesSnippets(category, after, windowStart)
  {
    var failed: seq<Source> := [FetchFailed];
    SourcesSnippetsAppend(category, before + failed, after, windowStart);
    SourcesSnippetsAppend(category, before, failed, windowStart);
    assert SourcesSnippets(category, failed, windowStart) == [] by {
      assert failed[1..] == [];
    }
    var x := SourcesSnippets(category, before, windowStart);
    assert SourcesSnippets(category, before + failed, windowStart) == x + [] == x;
  }

  /** An entry raising inside one source keeps everything collected before it, including
      that source's earlier entries, drops that source's later entries, and leaves every
      later source untouched. */
  lemma RaiseIsContainedInSource(category: string, before: seq<Source>, done: seq<Entry>, failing: Entry,
                                 rest: seq<Entry>, after: seq<Source>, windowStart: int)
    requires forall m :: 0 <= m < |done| ==> Completes(category, done[m], windowStart)
    requires ProcessEntry(category, failing, windowStart) == Raise
    ensures SourcesSnippets(category, before + [Fetched(done + [failing] + rest)] + after, windowStart) ==
      SourcesSnippets(category, before, windowStart) + FeedSnippets(category, done, windowStart) +
      SourcesSnippets(category, after, windowStart)
  {
    var one: seq<Source> := [Fetched(done + [failing] + rest)];
    SourcesSnippetsAppend(category, before + one, after, windowStart);
    SourcesSnippetsAppend(category, before, one, windowStart);
    TailCut(category, done, failing, rest, windowStart);
    assert SourcesSnippets(category, one, windowStart) == FeedSnippets(category, done, windowStart) by {
      assert one[1..] == [];
    }
  }

  // ---------------------------------------------------------------------------
  // The empty outcome

  /** No entry admitted anywhere: every fetched feed of every category yields no snippet. */
  ghost predicate NothingAdmitted(categories: seq<Category>, windowStart: int) {
    forall i, j, m ::
      0 <= i < |categories| && 0 <= j < |categories[i].sources| &&
      categories[i].sources[j].Fetched? && 0 <= m < |categories[i].sources[j].entries| ==>
        !ProcessEntry(categories[i].name, categories[i].sources[j].entries[m], windowStart).Emit?
  }

  lemma {:induction false} QuietFeed(category: string, entries: seq<Entry>, windowStart: int)
    requires forall m :: 0 <= m < |entries| ==> !ProcessEntry(category, entries[m], windowStart).Emit?
    ensures FeedSnippets(category, entries, windowStart) == []
  {
    if entries != [] {
      assert !ProcessEntry(category, entries[0], windowStart).Emit?;
      assert forall m :: 0 <= m < |entries[1..]| ==> entries[1..][m] == entries[m + 1];
      QuietFeed(category, entries[1..], windowStart);
    }
  }

  lemma {:induction false} QuietSources(category: string, sources: seq<Source>, windowStart: int)
    requires forall j, m :: 0 <= j < |sources| && sources[j].Fetched? && 0 <= m < |sources[j].entries| ==>
      !ProcessEntry(category, sources[j].entries[m], windowStart).Emit?
    ensures SourcesSnippets(category, sources, windowStart) == []
  {
    if sources != [] {
      if sources[0].Fetched? {
        QuietFeed(category, sources[0].entries, windowStart);
      }
      assert forall j :: 0 <= j < |sources[1..]| ==> sources[1..][j] == sources[j + 1];
      QuietSources(category, sources[1..], windowStart);
    }
  }

  /** If no entry is admitted, the collected text is the empty string. */
  lemma {:induction false} NothingAdmittedGivesEmptyText(categories: seq<Category>, windowStart: int)
    requires NothingAdmitted(categories, windowStart)
    ensures AllSnippets(categories, windowStart) == []
    ensures Join(AllSnippets(categories, windowStart)) == ""
  {
    if categories != [] {
      QuietSources(categories[0].name, categories[0].sources, windowStart);
      assert forall i :: 0 <= i < |categories[1..]| ==> categories[1..][i] == categories[i + 1];
      NothingAdmittedGivesEmptyText(categories[1..], windowStart);
    }
  }

  /** Every collected snippet is non-empty. */
  lemma {:induction false} FeedSnippetsNonEmpty(category: string, entries: seq<Entry>, windowStart: int)
    ensures forall n :: 0 <= n < |FeedSnippets(category, entries, windowStart)| ==>
      FeedSnippets(category, entries, windowStart)[n] != ""
  {
    if entries != [] {
      FeedSnippetsNonEmpty(category, entries[1..], windowStart);
      if ProcessEntry(category, entries[0], windowStart).Emit? {
        SnippetNonEmpty(category, entries[0], windowStart);
      }
    }
  }

  lemma {:induction false} SourcesSnippetsNonEmpty(category: string, sources: seq<Source>, windowStart: int)
    ensures forall n :: 0 <= n < |SourcesSnippets(category, sources, windowStart)| ==>
      SourcesSnippets(category, sources, windowStart)[n] != ""
  {
    if sources != [] {
      if sources[0].Fetched? {
        FeedSnippetsNonEmpty(category, sources[0].entries, windowStart);
      }
      SourcesSnippetsNonEmpty(category, sources[1..], windowStart);
    }
  }

  lemma {:induction false} AllSnippetsNonEmpty(categories: seq<Category>, windowStart: int)
    ensures forall n :: 0 <= n < |AllSnippets(categories, windowStart)| ==> AllSnippets(categories, windowStart)[n] != ""
  {
    if categories != [] {
      SourcesSnippetsNonEmpty(categories[0].name, categories[0].sources, windowStart);
      AllSnippetsNonEmpty(categories[1..], windowStart);
    }
  }

  /** Joining non-empty parts gives the empty string exactly when there are no parts. */
  lemma {:induction false} JoinEmptyIff(parts: seq<string>)
    requires forall n :: 0 <= n < |parts| ==> parts[n] != ""
    ensures Join(parts) == "" <==> parts == []
  {
    if parts != [] {
      assert |Join(parts)| >= |parts[0]| > 0;
    }
  }

  /** The collected text is empty exactly when no snippet was collected. */
  lemma EmptyTextIffNoSnippet(categories: seq<Category>, windowStart: int)
    ensures Join(AllSnippets(categories, windowStart)) == "" <==> AllSnippets(categories, windowStart) == []
  {
    AllSnippetsNonEmpty(categories, windowStart);
    JoinEmptyIff(AllSnippets(categories, windowStart));
  }
}
