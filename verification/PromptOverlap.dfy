/** When bind_sources (src/krepis/llm_trace.py) can be trusted that an embedded section occurs
    once: its guard counts occurrences that do not overlap. */
module PromptOverlap {
  import opened Prelude
  import opened PromptSources

  ghost predicate OccursOnce(user: string, t: string) {
    forall i: nat, j: nat :: OccursAt(user, t, i) && OccursAt(user, t, j) ==> i == j
  }

  /** The guard of bind_sources tells the truth about a section in every content. */
  ghost predicate GuardIsExact(t: string) { forall user :: Count(user, t) == 1 ==> OccursOnce(user, t) }

  /** A border of t: a proper stretch that both starts and ends it. */
  predicate BorderAt(t: string, k: nat) { 0 < k < |t| && t[k..] == t[..|t| - k] }

  ghost predicate Borderless(t: string) { forall k: nat :: !BorderAt(t, k) }

  lemma BorderOverlaps(t: string, k: nat)
    requires BorderAt(t, k)
    ensures var user := t[..k] + t;
      OccursAt(user, t, 0) && OccursAt(user, t, k) && Count(user, t) == 1
  {
    var user := t[..k] + t;
    assert t == t[..k] + t[k..];
    assert user[..|t|] == t[..k] + t[..|t| - k];
    assert OccursAt(user, t, 0) && OccursAt(user, t, k);
    CountIsOne(user, t);
  }

  lemma OverlapIsBorder(user: string, t: string, i: nat, j: nat)
    requires OccursAt(user, t, i) && OccursAt(user, t, j) && i < j < i + |t|
    ensures BorderAt(t, j - i)
  {
    var k := j - i;
    SliceOfSlice(user, i, |t|, k, |t|);
    SliceOfSlice(user, j, |t|, 0, |t| - k);
    assert t[k..] == t[k..|t|] && t[..|t| - k] == t[0..|t| - k];
  }

  /** The guard is exact, for every content, exactly if the section has no border. */
  lemma GuardIsExactIff(t: string)
    requires t != ""
    ensures GuardIsExact(t) <==> Borderless(t)
  {
    if k: nat :| BorderAt(t, k) {
      BorderOverlaps(t, k);
      assert !OccursOnce(t[..k] + t, t);
    }
    if Borderless(t) {
      forall user | Count(user, t) == 1
        ensures OccursOnce(user, t)
      {
        CountIsOne(user, t);
        var f: nat :| OccursAt(user, t, f) && (forall j :: 0 <= j < f ==> !OccursAt(user, t, j))
          && (forall j :: f + |t| <= j ==> !OccursAt(user, t, j));
        forall i: nat | OccursAt(user, t, i)
          ensures i == f
        {
          if f < i < f + |t| { OverlapIsBorder(user, t, f, i); }
        }
      }
    }
  }

  // ── what a caller can check ──

  /** Between its "<" and its ">" the mark has neither, and it is not a closing one. */
  predicate IsMark(m: string) {
    && |m| > 2 && m[0] == '<' && m[1] != '/' && m[|m| - 1] == '>'
    && forall i :: 0 < i < |m| - 1 ==> m[i] != '<' && m[i] != '>'
  }

  ghost predicate Never(u: string, m: string) { forall k: nat :: !OccursAt(u, m, k) }

  ghost predicate OnlyAtStart(u: string, m: string) { forall k: nat :: k > 0 ==> !OccursAt(u, m, k) }

  /** The last angle bracket is a closing one; the first one is an opening one. */
  predicate Closes(u: string) {
    exists j :: 0 <= j < |u| && u[j] == '>' && forall i :: j < i < |u| ==> u[i] != '<'
  }

  predicate Opens(v: string) {
    exists j :: 0 <= j < |v| && v[j] == '<' && forall i :: 0 <= i < j ==> v[i] != '>'
  }

  lemma MarkAt(u: string, m: string, k: nat)
    requires IsMark(m) && OccursAt(u, m, k)
    ensures u[k] == '<' && u[k + 1] == m[1] && u[k + |m| - 1] == '>'
    ensures forall i :: k < i < k + |m| - 1 ==> u[i] != '<' && u[i] != '>'
  {
    var s := u[k..k + |m|];
    assert forall i :: k <= i < k + |m| ==> u[i] == s[i - k];
  }

  /** No mark lies across a seam after a closing or before an opening bracket. */
  lemma NoMarkAcross(u: string, v: string, m: string, k: nat)
    requires IsMark(m) && (Closes(u) || Opens(v)) && OccursAt(u + v, m, k)
    ensures k + |m| <= |u| || k >= |u|
  {
    var w := u + v;
    MarkAt(w, m, k);
    if Closes(u) {
      var j :| 0 <= j < |u| && u[j] == '>' && forall i :: j < i < |u| ==> u[i] != '<';
      assert w[j] == '>';
      if k < |u| {
        assert u[k] == w[k];
        assert k < j;
      }
    } else {
      var j :| 0 <= j < |v| && v[j] == '<' && forall i :: 0 <= i < j ==> v[i] != '>';
      assert w[|u| + j] == '<';
      var e := k + |m| - 1 - |u|;
      if 0 <= e < |v| {
        assert v[e] == w[|u| + e];
        assert j < e;
      }
    }
  }

  lemma OccursInPart(u: string, v: string, m: string, k: nat)
    requires OccursAt(u + v, m, k)
    ensures k + |m| <= |u| ==> OccursAt(u, m, k)
    ensures k >= |u| ==> OccursAt(v, m, k - |u|)
  {
    var w := u + v;
    if k + |m| <= |u| {
      assert w[k..k + |m|] == u[k..k + |m|];
    } else if k >= |u| {
      assert w[k..k + |m|] == v[k - |u|..k - |u| + |m|];
    }
  }

  lemma Glue(u: string, v: string, m: string)
    requires IsMark(m) && u != "" && OnlyAtStart(u, m) && Never(v, m) && (Closes(u) || Opens(v))
    ensures OnlyAtStart(u + v, m)
  {
    forall k: nat | k > 0
      ensures !OccursAt(u + v, m, k)
    {
      if OccursAt(u + v, m, k) {
        NoMarkAcross(u, v, m, k);
        OccursInPart(u, v, m, k);
      }
    }
  }

  lemma ClosesAfter(u: string, v: string)
    requires Closes(v)
    ensures Closes(u + v)
  {
    var j :| 0 <= j < |v| && v[j] == '>' && forall i :: j < i < |v| ==> v[i] != '<';
    var w := u + v;
    assert w[|u| + j] == '>';
    assert forall i :: |u| + j < i < |w| ==> w[i] == v[i - |u|];
  }

  /** A mark and a line break holds another mark only if it is the same one. */
  lemma MarkInMark(q: string, m: string)
    requires IsMark(q) && IsMark(m)
    ensures OnlyAtStart(q + "\n", m) && Opens(q + "\n") && Closes(q + "\n")
    ensures q != m ==> Never(q + "\n", m)
  {
    var u := q + "\n";
    assert u[0] == '<' && u[|q| - 1] == '>';
    assert u[|q|] == '\n';
    forall k: nat | OccursAt(u, m, k)
      ensures k == 0 && q == m
    {
      MarkAt(u, m, k);
      assert forall i :: 0 < i < |u| ==> u[i] != '<';
      assert forall i :: 0 <= i < |u| && u[i] == '>' ==> i == |q| - 1;
      assert u[0..|m|] == q;
    }
  }

  lemma {:induction false} EscapeHasNoAngles(s: string)
    ensures forall i :: 0 <= i < |Escape(s)| ==> Escape(s)[i] != '<' && Escape(s)[i] != '>'
  {
    if s != "" { EscapeHasNoAngles(s[1..]); }
  }

  lemma CharsEscapeApart(c: char, x: string, d: char, y: string)
    requires EscapeChar(c) + x == EscapeChar(d) + y
    ensures c == d && x == y
  {
    var u, v := EscapeChar(c) + x, EscapeChar(d) + y;
    assert u[0] == EscapeChar(c)[0] && v[0] == EscapeChar(d)[0];
    if EscapeChar(c)[0] == '&' {
      assert u[1] == EscapeChar(c)[1] && v[1] == EscapeChar(d)[1];
    }
    assert c == d;
    assert x == u[|EscapeChar(c)|..] && y == v[|EscapeChar(d)|..];
  }

  lemma {:induction false} EscapeInjective(s: string, t: string)
    requires Escape(s) == Escape(t)
    ensures s == t
  {
    if s != "" && t != "" {
      CharsEscapeApart(s[0], Escape(s[1..]), t[0], Escape(t[1..]));
      EscapeInjective(s[1..], t[1..]);
      assert s == [s[0]] + s[1..] && t == [t[0]] + t[1..];
    }
  }

  lemma MarksOfTags(cid: string)
    ensures IsMark(Mark(cid))
  {
    EscapeHasNoAngles(cid);
    var m, e := Mark(cid), Escape(cid);
    var head := "<source cid=\"";
    assert m == head + e + "\">";
    assert forall i :: 0 < i < |m| - 1 ==>
      m[i] == if i < |head| then head[i] else if i < |head| + |e| then e[i - |head|] else '"';
  }

  lemma MarkInjective(c: string, d: string)
    requires Mark(c) == Mark(d)
    ensures c == d
  {
    var head := "<source cid=\"";
    assert Escape(c) == Mark(c)[|head|..|Mark(c)| - 2];
    assert Escape(d) == Mark(d)[|head|..|Mark(d)| - 2];
    EscapeInjective(c, d);
  }

  lemma CloseTagIsNoMark(m: string)
    requires IsMark(m)
    ensures Never(CLOSE_TAG, m) && Opens(CLOSE_TAG) && Closes(CLOSE_TAG)
  {
    var t := CLOSE_TAG;
    assert t[1] == '<' && t[9] == '>' && t[2] == '/';
    forall k: nat
      ensures !OccursAt(t, m, k)
    {
      if OccursAt(t, m, k) { MarkAt(t, m, k); }
    }
  }

  /** No source's text, and not the separator, holds the first source's opening tag (its
      final line break left aside). */
  ghost predicate FirstTagIsRare(ss: seq<Source>, separator: string)
    requires ss != []
  {
    Never(separator, Mark(ss[0].cid)) && forall i :: 0 <= i < |ss| ==> Never(ss[i].text, Mark(ss[0].cid))
  }

  /** A text that starts with the mark, holds it nowhere else, and ends outside of tags. */
  ghost predicate MarkedOnce(u: string, m: string) { m <= u && OnlyAtStart(u, m) && Closes(u) }

  /** A text without the mark, and then a tag without it: text and closing tag, separator and
      opening tag. */
  lemma TextAndTag(u: string, text: string, tag: string, m: string)
    requires IsMark(m) && MarkedOnce(u, m) && Never(text, m)
    requires Never(tag, m) && Opens(tag) && Closes(tag)
    ensures MarkedOnce(u + text + tag, m)
  {
    Glue(u, text, m);
    Glue(u + text, tag, m);
    ClosesAfter(u + text, tag);
    StillStarts(u, text, m);
    StillStarts(u + text, tag, m);
  }

  lemma StillStarts(u: string, v: string, m: string)
    requires m <= u
    ensures m <= u + v
  {
    assert (u + v)[..|m|] == u[..|m|];
  }

  lemma OpenTagOf(s: Source, m: string)
    requires IsMark(m)
    ensures Opens(OpenTag(s)) && Closes(OpenTag(s)) && OnlyAtStart(OpenTag(s), m)
    ensures Mark(s.cid) != m ==> Never(OpenTag(s), m)
  {
    MarksOfTags(s.cid);
    MarkInMark(Mark(s.cid), m);
  }

  /** Tags of which the first opening one, and no other, holds the mark. */
  ghost predicate GoodTags(tags: Tags, ss: seq<Source>, m: string) {
    && Never(tags.close, m) && Opens(tags.close) && Closes(tags.close)
    && (forall i :: 0 <= i < |ss| ==> Opens(tags.open(ss[i])) && Closes(tags.open(ss[i])))
    && (forall i :: 0 < i < |ss| ==> Never(tags.open(ss[i]), m))
    && (ss != [] ==> MarkedOnce(tags.open(ss[0]), m))
  }

  lemma {:induction false} SectionIsMarkedOnce(ss: seq<Source>, n: nat, separator: string, tags: Tags, m: string)
    requires 0 < n <= |ss| && IsMark(m) && GoodTags(tags, ss, m)
    requires Never(separator, m) && forall i :: 0 <= i < |ss| ==> Never(ss[i].text, m)
    ensures MarkedOnce(SectionTo(ss, n, separator, tags), m)
  {
    var s, before := ss[n - 1], SectionTo(ss, n - 1, separator, tags);
    var head := before + Gap(n - 1, separator) + tags.open(s);
    if n == 1 {
      assert head == tags.open(s);
    } else {
      SectionIsMarkedOnce(ss, n - 1, separator, tags, m);
      TextAndTag(before, separator, tags.open(s), m);
    }
    TextAndTag(head, s.text, tags.close, m);
  }

  lemma SourceTagsAreGood(ss: seq<Source>)
    requires ss != [] && DistinctCids(ss)
    ensures GoodTags(SourceTags(), ss, Mark(ss[0].cid))
  {
    var m := Mark(ss[0].cid);
    MarksOfTags(ss[0].cid);
    CloseTagIsNoMark(m);
    forall i | 0 <= i < |ss|
      ensures Opens(OpenTag(ss[i])) && Closes(OpenTag(ss[i])) && OnlyAtStart(OpenTag(ss[i]), m)
      ensures i > 0 ==> Never(OpenTag(ss[i]), m)
    {
      OpenTagOf(ss[i], m);
      if Mark(ss[i].cid) == m { MarkInjective(ss[i].cid, ss[0].cid); }
    }
    StillStarts(m, "\n", m);
  }

  lemma BorderOfMarked(t: string, m: string, k: nat)
    requires BorderAt(t, k) && m <= t
    ensures |t| - k >= |m| ==> OccursAt(t, m, k)
    ensures |t| - k < |m| ==> t[|t| - 1] == m[|t| - k - 1]
  {
    var n := |t| - k;
    if n >= |m| {
      assert t[k..k + |m|] == t[k..][..|m|] == t[..n][..|m|] == m;
    } else {
      assert t[k..][n - 1] == t[|t| - 1] && t[..n][n - 1] == m[n - 1];
    }
  }

  lemma MarkedOnceIsBorderless(t: string, m: string)
    requires IsMark(m) && MarkedOnce(t, m) && t[|t| - 1] == '>'
    ensures Borderless(t)
  {
    forall k: nat
      ensures !BorderAt(t, k)
    {
      if BorderAt(t, k) { BorderOfMarked(t, m, k); }
    }
  }

  /** A caller who checks its sources' texts and its separator for the first source's
      opening tag can rely on the guard, in every content it embeds the section in. */
  lemma CheckedSectionIsFoundOnce(ss: seq<Source>, separator: string)
    requires ss != [] && DistinctCids(ss) && FirstTagIsRare(ss, separator)
    ensures GuardIsExact(Section(ss, separator, SourceTags()))
  {
    var t := Section(ss, separator, SourceTags());
    MarksOfTags(ss[0].cid);
    SourceTagsAreGood(ss);
    SectionIsMarkedOnce(ss, |ss|, separator, SourceTags(), Mark(ss[0].cid));
    assert t[|t| - 1] == CLOSE_TAG[9] == '>';
    MarkedOnceIsBorderless(t, Mark(ss[0].cid));
    GuardIsExactIff(t);
  }

  // ── the input ──

  lemma ThreeInARow(x: string, user: string, t: string)
    requires x != "" && t == x + x && user == x + x + x
    ensures OccursAt(user, t, 0) && OccursAt(user, t, |x|) && Count(user, t) == 1
  {
    assert user == t + x == x + t;
    assert OccursAt(user, t, 0) && OccursAt(user, t, |x|);
    assert forall j :: 0 + |t| <= j ==> !OccursAt(user, t, j);
    CountIsOne(user, t);
  }

  /** The guard accepts a content in which the section occurs twice: one source, whose text
      closes its own tag and opens it again. The line break after the tag need not even be
      in the text, so a search for the whole opening tag would not find it. */
  lemma OverlapIsCountedOnce(cid: string) returns (s: Source, user: string, second: nat)
    ensures s.cid == cid && Never(s.text, OpenTag(s))
    ensures var t := Section([s], "\n\n", SourceTags());
      second > 0 && OccursAt(user, t, 0) && OccursAt(user, t, second) && Count(user, t) == 1
  {
    var m := Mark(cid);
    s := Source(cid, "</source>" + m);
    SingleSection(s);
    var x := m + "\n" + "</source>";
    Doubled(m, "\n", "</source>", s.text, CLOSE_TAG);
    user, second := x + x + x, |x|;
    ThreeInARow(x, user, Section([s], "\n\n", SourceTags()));
    NotWholeTag(m, s.text);
  }

  lemma Doubled(m: string, nl: string, end: string, text: string, close: string)
    requires text == end + m && close == nl + end
    ensures (m + nl) + text + close == (m + nl + end) + (m + nl + end)
  {
  }

  lemma FirstTwo(u: string, t: string, k: nat)
    requires OccursAt(u, t, k) && |t| >= 2
    ensures u[k] == t[0] && u[k + 1] == t[1]
  {
    assert u[k..k + |t|][0] == u[k] && u[k..k + |t|][1] == u[k + 1];
  }

  lemma NotWholeTag(m: string, text: string)
    requires |m| >= 2 && m[0] == '<' && m[1] != '/' && text == "</source>" + m
    ensures Never(text, m + "\n")
  {
    forall k: nat
      ensures !OccursAt(text, m + "\n", k)
    {
      if OccursAt(text, m + "\n", k) { FirstTwo(text, m + "\n", k); }
    }
  }

  lemma SingleSection(s: Source)
    ensures Section([s], "\n\n", SourceTags()) == OpenTag(s) + s.text + CLOSE_TAG
  {
    assert SectionTo([s], 0, "\n\n", SourceTags()) == "";
    assert "" + "" + OpenTag(s) == OpenTag(s);
  }
}
