/** Exact source offsets in prompts (src/krepis/llm_trace.py): render_sources and bind_sources. */
module PromptSources {
  import opened Prelude

  datatype Source = Source(cid: string, text: string)

  /** A source and its place, [start, end), in some text. */
  datatype Span = Span(source: Source, start: nat, end: nat)

  datatype Rendered = Rendered(text: string, spans: seq<Span>)

  datatype Error = DuplicateCid(cid: string) | NotExactlyOnce(count: nat)

  datatype Result<T> = Ok(value: T) | Err(error: Error)

  function EscapeChar(c: char): string {
    match c
    case '&' => "&amp;"
    case '<' => "&lt;"
    case '>' => "&gt;"
    case '"' => "&quot;"
    case '\'' => "&#x27;"
    case _ => [c]
  }

  /** html.escape(_, quote=True) */
  function Escape(s: string): string {
    if s == "" then "" else EscapeChar(s[0]) + Escape(s[1..])
  }

  /** What stands before and after the text of a source. */
  datatype Tags = Tags(open: Source -> string, close: string)

  /** The opening tag up to its ">". */
  function Mark(cid: string): string { "<source cid=\"" + Escape(cid) + "\">" }

  function OpenTag(s: Source): string { Mark(s.cid) + "\n" }

  const CLOSE_TAG := "\n</source>"

  function SourceTags(): Tags { Tags(OpenTag, CLOSE_TAG) }

  function Piece(s: Source, tags: Tags): string { tags.open(s) + s.text + tags.close }

  /** What stands before source n: nothing, or the separator. */
  function Gap(n: nat, separator: string): string { if n == 0 then "" else separator }

  function Gaps(n: nat, separator: string): seq<string> { if n == 0 then [] else [separator] }

  /** The parts of the first n sources: every source between its tags, the separator between. */
  function Parts(ss: seq<Source>, n: nat, separator: string, tags: Tags): seq<string>
    requires n <= |ss|
  {
    if n == 0 then []
    else Parts(ss, n - 1, separator, tags) + Gaps(n - 1, separator) + [Piece(ss[n - 1], tags)]
  }

  /** The same as one text. */
  function SectionTo(ss: seq<Source>, n: nat, separator: string, tags: Tags): string
    requires n <= |ss|
  {
    if n == 0 then ""
    else
      (SectionTo(ss, n - 1, separator, tags) + Gap(n - 1, separator) + tags.open(ss[n - 1])) + ss[n - 1].text
      + tags.close
  }

  /** The whole section. */
  function Section(ss: seq<Source>, separator: string, tags: Tags): string {
    SectionTo(ss, |ss|, separator, tags)
  }

  predicate DistinctCids(ss: seq<Source>) {
    forall i, j :: 0 <= i < j < |ss| ==> ss[i].cid != ss[j].cid
  }

  /** Every span lies in the text and cuts out exactly its source's text. */
  predicate Exact(text: string, spans: seq<Span>) {
    forall k :: 0 <= k < |spans| ==>
      spans[k].start <= spans[k].end <= |text| && text[spans[k].start..spans[k].end] == spans[k].source.text
  }

  /** Spans come in order with at least a closing and an opening tag between two of them. */
  predicate Apart(spans: seq<Span>, tags: Tags) {
    forall i, j :: 0 <= i < j < |spans| ==>
      spans[i].end + |tags.close| + |tags.open(spans[j].source)| <= spans[j].start
  }

  /** Right before every span stands its source's opening tag, right after it the closing one. */
  predicate Tagged(text: string, spans: seq<Span>, tags: Tags) {
    forall k :: 0 <= k < |spans| ==> TaggedAt(text, spans[k], tags.open(spans[k].source), tags.close)
  }

  predicate TaggedAt(text: string, span: Span, open: string, close: string) {
    && |open| <= span.start <= span.end && span.end + |close| <= |text|
    && text[span.start - |open|..span.start] == open && text[span.end..span.end + |close|] == close
  }

  predicate Renders(r: Rendered, ss: seq<Source>, separator: string, tags: Tags) {
    && r.text == Section(ss, separator, tags)
    && |r.spans| == |ss| && (forall k :: 0 <= k < |ss| ==> r.spans[k].source == ss[k])
    && Exact(r.text, r.spans) && Apart(r.spans, tags) && Tagged(r.text, r.spans, tags)
  }

  lemma ExactExtends(text: string, spans: seq<Span>, more: string)
    requires Exact(text, spans)
    ensures Exact(text + more, spans)
  {
  }

  lemma ExactPush(text: string, spans: seq<Span>, head: string, s: Source, close: string, all: string)
    requires Exact(text, spans) && all == text + head + s.text + close
    ensures Exact(all, spans + [Span(s, |text| + |head|, |text| + |head| + |s.text|)])
  {
    ExactExtends(text, spans, head + s.text + close);
    assert all == text + (head + s.text + close);
  }

  function Length(ss: seq<Source>, n: nat, separator: string, tags: Tags): nat
    requires n <= |ss|
  {
    if n == 0 then 0
    else
      var s := ss[n - 1];
      Length(ss, n - 1, separator, tags) + |Gap(n - 1, separator)| + |tags.open(s)| + |s.text| + |tags.close|
  }

  /** Where the first n sources of a section are. */
  function SpansOf(ss: seq<Source>, n: nat, separator: string, tags: Tags): seq<Span>
    requires n <= |ss|
  {
    if n == 0 then []
    else
      var s := ss[n - 1];
      var start := Length(ss, n - 1, separator, tags) + |Gap(n - 1, separator)| + |tags.open(s)|;
      SpansOf(ss, n - 1, separator, tags) + [Span(s, start, start + |s.text|)]
  }

  lemma {:induction false} JoinedParts(ss: seq<Source>, n: nat, separator: string, tags: Tags)
    requires n <= |ss|
    ensures Join(Parts(ss, n, separator, tags)) == SectionTo(ss, n, separator, tags)
  {
    if n > 0 {
      JoinedParts(ss, n - 1, separator, tags);
      JoinSource(Parts(ss, n - 1, separator, tags), SectionTo(ss, n - 1, separator, tags), n - 1, separator,
                 ss[n - 1], tags, Parts(ss, n, separator, tags));
    }
  }

  lemma JoinSource(parts: seq<string>, text: string, n: nat, separator: string, s: Source, tags: Tags,
                   parts': seq<string>)
    requires Join(parts) == text && parts' == parts + Gaps(n, separator) + [Piece(s, tags)]
    ensures Join(parts') == (text + Gap(n, separator) + tags.open(s)) + s.text + tags.close
  {
    JoinPart(parts, Gaps(n, separator), Piece(s, tags));
    JoinGaps(n, separator);
    Reassociate(text + Gap(n, separator), tags.open(s), s.text, tags.close);
  }

  lemma JoinGaps(n: nat, separator: string)
    ensures Join(Gaps(n, separator)) == Gap(n, separator)
  {
    JoinPush([], separator);
    assert [] + [separator] == [separator];
  }

  lemma JoinPart(parts: seq<string>, gaps: seq<string>, piece: string)
    requires |gaps| <= 1
    ensures Join(parts + gaps + [piece]) == Join(parts) + Join(gaps) + piece
  {
    JoinPush(parts + gaps, piece);
    if gaps == [] {
      assert parts + gaps == parts && Join(parts) + "" == Join(parts);
    } else {
      JoinPush(parts, gaps[0]);
      JoinPush([], gaps[0]);
      assert gaps == [gaps[0]] && [] + [gaps[0]] == gaps;
    }
  }

  lemma Reassociate(a: string, b: string, c: string, d: string)
    ensures a + (b + c + d) == (a + b) + c + d
  {
  }

  lemma {:induction false} SectionLength(ss: seq<Source>, n: nat, separator: string, tags: Tags)
    requires n <= |ss|
    ensures |SectionTo(ss, n, separator, tags)| == Length(ss, n, separator, tags)
  {
    if n > 0 {
      SectionLength(ss, n - 1, separator, tags);
    }
  }

  /** All spans, and their closing tags, end by a position. */
  predicate EndBy(spans: seq<Span>, close: string, cursor: nat) {
    forall k :: 0 <= k < |spans| ==> spans[k].end + |close| <= cursor
  }

  lemma ApartPush(spans: seq<Span>, tags: Tags, cursor: nat, span: Span)
    requires Apart(spans, tags) && EndBy(spans, tags.close, cursor)
    requires cursor + |tags.open(span.source)| <= span.start <= span.end
    ensures Apart(spans + [span], tags) && EndBy(spans + [span], tags.close, span.end + |tags.close|)
  {
  }

  lemma {:induction false} SpansApart(ss: seq<Source>, n: nat, separator: string, tags: Tags)
    requires n <= |ss|
    ensures var spans := SpansOf(ss, n, separator, tags);
      Apart(spans, tags) && EndBy(spans, tags.close, Length(ss, n, separator, tags))
  {
    if n > 0 {
      SpansApart(ss, n - 1, separator, tags);
      var before, spans := SpansOf(ss, n - 1, separator, tags), SpansOf(ss, n, separator, tags);
      ApartPush(before, tags, Length(ss, n - 1, separator, tags), spans[|spans| - 1]);
    }
  }

  lemma {:induction false} SpansSources(ss: seq<Source>, n: nat, separator: string, tags: Tags)
    requires n <= |ss|
    ensures var spans := SpansOf(ss, n, separator, tags);
      |spans| == n && forall k :: 0 <= k < n ==> spans[k].source == ss[k]
  {
    if n > 0 { SpansSources(ss, n - 1, separator, tags); }
  }

  lemma GapThenOpen(text: string, gap: string, open: string, spans: seq<Span>, s: Source, close: string, all: string)
    requires Exact(text, spans) && all == (text + gap + open) + s.text + close
    ensures var start := |text| + |gap| + |open|;
      Exact(all, spans + [Span(s, start, start + |s.text|)])
  {
    assert text + gap + open == text + (gap + open);
    ExactPush(text, spans, gap + open, s, close, all);
  }

  lemma SpansExactStep(ss: seq<Source>, n: nat, separator: string, tags: Tags)
    requires n < |ss| && Exact(SectionTo(ss, n, separator, tags), SpansOf(ss, n, separator, tags))
    requires |SectionTo(ss, n, separator, tags)| == Length(ss, n, separator, tags)
    ensures Exact(SectionTo(ss, n + 1, separator, tags), SpansOf(ss, n + 1, separator, tags))
  {
    GapThenOpen(SectionTo(ss, n, separator, tags), Gap(n, separator), tags.open(ss[n]),
                SpansOf(ss, n, separator, tags), ss[n], tags.close, SectionTo(ss, n + 1, separator, tags));
  }

  lemma {:induction false} SpansExact(ss: seq<Source>, n: nat, separator: string, tags: Tags)
    requires n <= |ss|
    ensures Exact(SectionTo(ss, n, separator, tags), SpansOf(ss, n, separator, tags))
  {
    if n > 0 {
      SpansExact(ss, n - 1, separator, tags);
      SectionLength(ss, n - 1, separator, tags);
      SpansExactStep(ss, n - 1, separator, tags);
    }
  }

  lemma TaggedHere(before: string, open: string, text: string, close: string, all: string, span: Span)
    requires all == (before + open) + text + close
    requires span.start == |before| + |open| && span.end == span.start + |text|
    ensures TaggedAt(all, span, open, close)
  {
  }

  lemma TaggedStill(text: string, all: string, span: Span, open: string, close: string)
    requires TaggedAt(text, span, open, close) && text <= all
    ensures TaggedAt(all, span, open, close)
  {
  }

  lemma SectionGrows(ss: seq<Source>, n: nat, separator: string, tags: Tags)
    requires n < |ss|
    ensures SectionTo(ss, n, separator, tags) <= SectionTo(ss, n + 1, separator, tags)
  {
  }

  lemma LastSpanTagged(ss: seq<Source>, n: nat, separator: string, tags: Tags, span: Span)
    requires n < |ss| && span.start == Length(ss, n, separator, tags) + |Gap(n, separator)| + |tags.open(ss[n])|
    requires span.end == span.start + |ss[n].text|
    ensures TaggedAt(SectionTo(ss, n + 1, separator, tags), span, tags.open(ss[n]), tags.close)
  {
    SectionLength(ss, n, separator, tags);
    TaggedHere(SectionTo(ss, n, separator, tags) + Gap(n, separator), tags.open(ss[n]), ss[n].text, tags.close,
               SectionTo(ss, n + 1, separator, tags), span);
  }

  lemma EarlierSpanTagged(ss: seq<Source>, n: nat, separator: string, tags: Tags, span: Span, open: string)
    requires n < |ss| && TaggedAt(SectionTo(ss, n, separator, tags), span, open, tags.close)
    ensures TaggedAt(SectionTo(ss, n + 1, separator, tags), span, open, tags.close)
  {
    SectionGrows(ss, n, separator, tags);
    TaggedStill(SectionTo(ss, n, separator, tags), SectionTo(ss, n + 1, separator, tags), span, open, tags.close);
  }

  lemma SpanPlace(ss: seq<Source>, n: nat, separator: string, tags: Tags, k: nat)
    requires k <= n < |ss|
    ensures |SpansOf(ss, n + 1, separator, tags)| == n + 1
    ensures k < n ==> |SpansOf(ss, n, separator, tags)| == n
                      && SpansOf(ss, n + 1, separator, tags)[k] == SpansOf(ss, n, separator, tags)[k]
    ensures k == n ==>
      var start := Length(ss, n, separator, tags) + |Gap(n, separator)| + |tags.open(ss[n])|;
      SpansOf(ss, n + 1, separator, tags)[k] == Span(ss[n], start, start + |ss[n].text|)
  {
    SpansSources(ss, n, separator, tags);
  }

  lemma {:induction false} SpanTagged(ss: seq<Source>, n: nat, separator: string, tags: Tags, k: nat, span: Span)
    requires k < n <= |ss| && k < |SpansOf(ss, n, separator, tags)| && span == SpansOf(ss, n, separator, tags)[k]
    ensures TaggedAt(SectionTo(ss, n, separator, tags), span, tags.open(ss[k]), tags.close)
  {
    SpanPlace(ss, n - 1, separator, tags, k);
    if k < n - 1 {
      SpanTagged(ss, n - 1, separator, tags, k, span);
      EarlierSpanTagged(ss, n - 1, separator, tags, span, tags.open(ss[k]));
    } else {
      LastSpanTagged(ss, n - 1, separator, tags, span);
    }
  }

  lemma SpansTagged(ss: seq<Source>, separator: string, tags: Tags)
    ensures Tagged(Section(ss, separator, tags), SpansOf(ss, |ss|, separator, tags), tags)
  {
    SpansSources(ss, |ss|, separator, tags);
    forall k | 0 <= k < |ss|
      ensures TaggedAt(Section(ss, separator, tags), SpansOf(ss, |ss|, separator, tags)[k], tags.open(ss[k]),
                       tags.close)
    {
      SpanTagged(ss, |ss|, separator, tags, k, SpansOf(ss, |ss|, separator, tags)[k]);
    }
  }

  /** The spans are exact, in order, apart, and each right between its tags. */
  lemma SectionRenders(ss: seq<Source>, separator: string, tags: Tags)
    ensures Renders(Rendered(Section(ss, separator, tags), SpansOf(ss, |ss|, separator, tags)), ss, separator, tags)
  {
    SpansExact(ss, |ss|, separator, tags);
    SpansApart(ss, |ss|, separator, tags);
    SpansTagged(ss, separator, tags);
    SpansSources(ss, |ss|, separator, tags);
  }

  predicate Repeats(ss: seq<Source>, cid: string) {
    exists i, j :: 0 <= i < j < |ss| && ss[i].cid == ss[j].cid == cid
  }

  /** The cids of the first n sources. */
  function Cids(ss: seq<Source>, n: nat): set<string>
    requires n <= |ss|
  {
    if n == 0 then {} else Cids(ss, n - 1) + {ss[n - 1].cid}
  }

  lemma {:induction false} CidsMeaning(ss: seq<Source>, n: nat)
    requires n <= |ss|
    ensures forall c :: c in Cids(ss, n) <==> exists i :: 0 <= i < n && ss[i].cid == c
  {
    if n > 0 { CidsMeaning(ss, n - 1); }
  }

  /** No cid repeats among the first n. */
  predicate AllNew(ss: seq<Source>, n: nat)
    requires n <= |ss|
  {
    n == 0 || (AllNew(ss, n - 1) && ss[n - 1].cid !in Cids(ss, n - 1))
  }

  lemma {:induction false} AllNewMeaning(ss: seq<Source>, n: nat)
    requires n <= |ss|
    ensures AllNew(ss, n) <==> forall i, j :: 0 <= i < j < n ==> ss[i].cid != ss[j].cid
  {
    if n > 0 {
      AllNewMeaning(ss, n - 1);
      CidsMeaning(ss, n - 1);
    }
  }

  lemma SeenRepeats(ss: seq<Source>, n: nat)
    requires n < |ss| && ss[n].cid in Cids(ss, n)
    ensures Repeats(ss, ss[n].cid) && !DistinctCids(ss)
  {
    CidsMeaning(ss, n);
  }

  /** One pass of the loop: the next source's parts, its span, and the cursor after it. */
  method RenderOne(ss: seq<Source>, index: nat, separator: string, tags: Tags, parts: seq<string>, spans: seq<Span>,
                   cursor: nat) returns (parts': seq<string>, spans': seq<Span>, cursor': nat)
    requires index < |ss| && parts == Parts(ss, index, separator, tags)
    requires spans == SpansOf(ss, index, separator, tags) && cursor == Length(ss, index, separator, tags)
    ensures parts' == Parts(ss, index + 1, separator, tags)
    ensures spans' == SpansOf(ss, index + 1, separator, tags)
    ensures cursor' == Length(ss, index + 1, separator, tags)
  {
    var s := ss[index];
    parts', cursor' := parts, cursor;
    if index > 0 {
      parts' := parts' + [separator];
      cursor' := cursor' + |separator|;
    }
    var head := tags.open(s);
    var start := cursor' + |head|;
    var end := start + |s.text|;
    parts' := parts' + [Piece(s, tags)];
    cursor' := end + |tags.close|;
    spans' := spans + [Span(s, start, end)];
  }

  /** render_sources; the tags are always SourceTags(). */
  method RenderSources(ss: seq<Source>, separator: string, tags: Tags) returns (r: Result<Rendered>)
    ensures r.Ok? <==> DistinctCids(ss)
    ensures r.Ok? ==> Renders(r.value, ss, separator, tags)
    ensures r.Err? ==> r.error.DuplicateCid? && Repeats(ss, r.error.cid)
  {
    var parts: seq<string>, spans: seq<Span>, seen: set<string>, cursor := [], [], {}, 0;
    var index := 0;
    while index < |ss|
      invariant 0 <= index <= |ss|
      invariant seen == Cids(ss, index) && AllNew(ss, index)
      invariant parts == Parts(ss, index, separator, tags)
      invariant cursor == Length(ss, index, separator, tags)
      invariant spans == SpansOf(ss, index, separator, tags)
    {
      if ss[index].cid in seen {
        SeenRepeats(ss, index);
        return Err(DuplicateCid(ss[index].cid));
      }
      seen := seen + {ss[index].cid};
      parts, spans, cursor := RenderOne(ss, index, separator, tags, parts, spans, cursor);
      index := index + 1;
    }
    AllNewMeaning(ss, |ss|);
    SectionRenders(ss, separator, tags);
    JoinedParts(ss, |ss|, separator, tags);
    return Ok(Rendered(Join(parts), spans));
  }

  // ── finding a rendered section in a caller's own template ──

  predicate OccursAt(text: string, t: string, i: nat) {
    i + |t| <= |text| && text[i..i + |t|] == t
  }

  /** str.index from a position on. */
  function Find(text: string, t: string, i: nat): (r: Option<nat>)
    requires i <= |text|
    ensures r.Some? ==> i <= r.value && OccursAt(text, t, r.value)
    ensures r.Some? ==> forall j :: i <= j < r.value ==> !OccursAt(text, t, j)
    ensures r.None? ==> forall j :: i <= j ==> !OccursAt(text, t, j)
    decreases |text| - i
  {
    if OccursAt(text, t, i) then Some(i)
    else if i == |text| then None
    else Find(text, t, i + 1)
  }

  /** str.count: occurrences that do not overlap, found from the left. */
  function CountFrom(text: string, t: string, i: nat): nat
    requires i <= |text| && t != ""
    decreases |text| - i
  {
    match Find(text, t, i)
    case None => 0
    case Some(j) => 1 + CountFrom(text, t, j + |t|)
  }

  function Count(text: string, t: string): nat {
    if t == "" then |text| + 1 else CountFrom(text, t, 0)
  }

  /** The count is one iff there is an occurrence and none starts past the end of the first. */
  lemma CountIsOne(text: string, t: string)
    requires t != ""
    ensures Count(text, t) == 1 <==>
      exists i: nat :: OccursAt(text, t, i)
        && (forall j :: 0 <= j < i ==> !OccursAt(text, t, j))
        && (forall j :: i + |t| <= j ==> !OccursAt(text, t, j))
  {
    var f := Find(text, t, 0);
    if f.Some? {
      assert CountFrom(text, t, 0) == 1 + CountFrom(text, t, f.value + |t|);
      if Count(text, t) == 1 {
        assert Find(text, t, f.value + |t|).None?;
      }
      forall i: nat | OccursAt(text, t, i) && (forall j :: 0 <= j < i ==> !OccursAt(text, t, j))
        ensures i == f.value
      {
        assert !(i < f.value);
      }
    }
  }

  function Shift(spans: seq<Span>, base: nat): seq<Span> {
    seq(|spans|, k requires 0 <= k < |spans| =>
      spans[k].(start := base + spans[k].start, end := base + spans[k].end))
  }

  lemma ShiftedExact(text: string, t: string, base: nat, spans: seq<Span>)
    requires OccursAt(text, t, base) && Exact(t, spans)
    ensures Exact(text, Shift(spans, base))
    ensures forall tags: Tags :: Apart(spans, tags) ==> Apart(Shift(spans, base), tags)
  {
    forall k | 0 <= k < |spans|
      ensures text[base + spans[k].start..base + spans[k].end] == spans[k].source.text
    {
      SliceOfSlice(text, base, |t|, spans[k].start, spans[k].end);
    }
  }

  datatype Sources = NoSources | Given(sources: seq<Source>) | Embedded(rendered: Rendered)

  function Prepended(ss: seq<Source>, user: string): string {
    if ss == [] then user else Section(ss, "\n\n", SourceTags()) + "\n\n" + user
  }

  /** bind_sources: the user content to send and the spans in it. A section the caller
      already embedded must have the exact spans that RenderSources gives. */
  method BindSources(user: string, sources: Sources) returns (r: Result<(string, seq<Span>)>)
    requires sources.Embedded? ==>
      Exact(sources.rendered.text, sources.rendered.spans) && Apart(sources.rendered.spans, SourceTags())
    ensures r.Ok? ==> var (content, spans) := r.value;
      && Exact(content, spans) && Apart(spans, SourceTags())
      && (sources.NoSources? ==> content == user && spans == [])
      && (sources.Given? ==>
            && content == Prepended(sources.sources, user) && |spans| == |sources.sources|
            && forall k :: 0 <= k < |spans| ==> spans[k].source == sources.sources[k])
      && (sources.Embedded? ==> content == user && |spans| == |sources.rendered.spans|
                                && forall k :: 0 <= k < |spans| ==> spans[k].source == sources.rendered.spans[k].source)
      && (sources.Embedded? && spans != [] ==>
            exists base: nat :: OccursAt(user, sources.rendered.text, base)
                                && spans == Shift(sources.rendered.spans, base))
    ensures sources.Given? ==> (r.Ok? <==> DistinctCids(sources.sources))
    ensures sources.Embedded? ==>
      (r.Ok? <==> sources.rendered.spans == [] || Count(user, sources.rendered.text) == 1)
  {
    match sources {
      case NoSources => return Ok((user, []));
      case Embedded(s) =>
        if s.spans == [] { return Ok((user, [])); }
        var count := Count(user, s.text);
        if count != 1 { return Err(NotExactlyOnce(count)); }
        var base := Find(user, s.text, 0).value;
        ShiftedExact(user, s.text, base, s.spans);
        return Ok((user, Shift(s.spans, base)));
      case Given(ss) =>
        if ss == [] { return Ok((user, [])); }
        var rendered := RenderSources(ss, "\n\n", SourceTags());
        if rendered.Err? { return Err(rendered.error); }
        var prefix := rendered.value.text + "\n\n";
        ExactExtends(rendered.value.text, rendered.value.spans, "\n\n" + user);
        assert prefix + user == rendered.value.text + ("\n\n" + user);
        return Ok((prefix + user, rendered.value.spans));
    }
  }

  // ── the tags read back ──

  /** What a text with the five entities stands for. */
  function Unescape(s: string): string {
    if s == "" then ""
    else if "&amp;" <= s then "&" + Unescape(s[5..])
    else if "&lt;" <= s then "<" + Unescape(s[4..])
    else if "&gt;" <= s then ">" + Unescape(s[4..])
    else if "&quot;" <= s then "\"" + Unescape(s[6..])
    else if "&#x27;" <= s then "'" + Unescape(s[6..])
    else [s[0]] + Unescape(s[1..])
  }

  lemma ReadsChar(c: char, rest: string)
    ensures Unescape(EscapeChar(c) + rest) == [c] + Unescape(rest)
  {
    var s := EscapeChar(c) + rest;
    assert s[|EscapeChar(c)|..] == rest;
    assert s[0] == EscapeChar(c)[0];
    if c in "&<>\"'" { assert s[1] == EscapeChar(c)[1]; }
  }

  /** Nothing that would end an attribute. */
  predicate Harmless(s: string) {
    forall i :: 0 <= i < |s| ==> s[i] != '<' && s[i] != '>' && s[i] != '"' && s[i] != '\''
  }

  lemma HarmlessChar(c: char)
    ensures Harmless(EscapeChar(c))
  {
  }

  lemma HarmlessConcat(a: string, b: string)
    requires Harmless(a) && Harmless(b)
    ensures Harmless(a + b)
  {
  }

  /** A cid in a tag reads back, and contains nothing that would end the attribute. */
  lemma {:induction false} EscapedReadsBack(s: string)
    ensures Unescape(Escape(s)) == s && Harmless(Escape(s))
  {
    if s != "" {
      EscapedReadsBack(s[1..]);
      ReadsChar(s[0], Escape(s[1..]));
      HarmlessChar(s[0]);
      HarmlessConcat(EscapeChar(s[0]), Escape(s[1..]));
    }
  }

  /** The tags around every text of a rendered section, spelled out. */
  lemma TagsSpelledOut(s: Source)
    ensures SourceTags().close == "\n</source>"
    ensures SourceTags().open(s) == "<source cid=\"" + Escape(s.cid) + "\">" + "\n" && Unescape(Escape(s.cid)) == s.cid
  {
    EscapedReadsBack(s.cid);
  }
}
