/** The batch custom_id codec of src/krepis/judge.py: (subject, run, judge model) packed into
    1 to 64 characters of a narrow alphabet, and unpacked by splitting on "__". */
module CustomId {
  import opened Prelude

  predicate Allowed(c: char) {
    'a' <= c <= 'z' || 'A' <= c <= 'Z' || '0' <= c <= '9' || c == '_' || c == '-'
  }

  /** Where the three ranges of the alphabet end. */
  lemma AlphabetEnds()
    ensures Allowed('a') && Allowed('z') && Allowed('A') && Allowed('Z') && Allowed('0') && Allowed('9')
    ensures !Allowed('`') && !Allowed('{') && !Allowed('@') && !Allowed('[') && !Allowed('/') && !Allowed(':')
  {
  }

  predicate AllAllowed(s: string) { forall i :: 0 <= i < |s| ==> Allowed(s[i]) }

  /** What the Batches API takes: [a-zA-Z0-9_-]{1,64}. */
  predicate Fits(s: string) { 1 <= |s| <= 64 && AllAllowed(s) }

  /** What the code's pattern takes: its "$" also matches before a final newline. */
  predicate MatchesPattern(s: string) {
    Fits(s) || (s != "" && s[|s| - 1] == '\n' && Fits(s[..|s| - 1]))
  }

  function Sanitize(s: string): (r: string)
    ensures |r| == |s| && AllAllowed(r) && (AllAllowed(s) ==> r == s)
  {
    seq(|s|, i requires 0 <= i < |s| => if Allowed(s[i]) then s[i] else '-')
  }

  const SEP := "__"

  // ── tags ──

  /** tag_by_logical, in insertion order. */
  type Tags = seq<(string, string)>

  predicate DistinctTags(tags: Tags) { forall i, j :: 0 <= i < j < |tags| ==> tags[i].1 != tags[j].1 }

  function TagOf(tags: Tags, model: string): Option<string> {
    if tags == [] then None
    else if tags[0].0 == model then Some(tags[0].1)
    else TagOf(tags[1..], model)
  }

  /** tag_reverse.get(tag, tag): of several models with one tag the last one counts. */
  function ModelOf(tags: Tags, tag: string): string {
    if tags == [] then tag
    else if tags[|tags| - 1].1 == tag then tags[|tags| - 1].0
    else ModelOf(tags[..|tags| - 1], tag)
  }

  lemma {:induction false} TagOfFinds(tags: Tags, model: string)
    ensures TagOf(tags, model).Some? ==>
      exists i :: 0 <= i < |tags| && tags[i] == (model, TagOf(tags, model).value)
  {
    if tags != [] && tags[0].0 != model {
      TagOfFinds(tags[1..], model);
      if TagOf(tags, model).Some? {
        var i :| 0 <= i < |tags| - 1 && tags[1..][i] == (model, TagOf(tags, model).value);
        assert tags[i + 1] == tags[1..][i];
      }
    }
  }

  lemma {:induction false} ModelOfAt(tags: Tags, i: nat)
    requires DistinctTags(tags) && i < |tags|
    ensures ModelOf(tags, tags[i].1) == tags[i].0
  {
    if i < |tags| - 1 { ModelOfAt(tags[..|tags| - 1], i); }
  }

  /** Distinct tags are told apart. */
  lemma TagsReadBack(tags: Tags, model: string)
    requires DistinctTags(tags) && TagOf(tags, model).Some?
    ensures ModelOf(tags, TagOf(tags, model).value) == model
  {
    TagOfFinds(tags, model);
    var i :| 0 <= i < |tags| && tags[i] == (model, TagOf(tags, model).value);
    ModelOfAt(tags, i);
  }

  function Digit(d: nat): char
    requires d < 10
  {
    ('0' as int + d) as char
  }

  /** The tag of an unregistered model: x and four digits of a hash. */
  function FallbackTag(hash: nat): (r: string)
    ensures |r| == 5 && AllAllowed(r)
  {
    ['x', Digit(hash / 1000 % 10), Digit(hash / 100 % 10), Digit(hash / 10 % 10), Digit(hash % 10)]
  }

  // ── encode ──

  function Truncate(subject: string, run: string, tag: string): (r: string)
    ensures AllAllowed(r) && |r| <= Max(8, 64 - (|run| + |tag| + 4))
  {
    var safe := Sanitize(subject);
    var most := Max(8, 64 - (|run| + |tag| + 4));
    if |safe| > most then safe[..most] else safe
  }

  function Pack(subject: string, run: string, tag: string): string { subject + SEP + run + SEP + tag }

  /** The last check: what does not match the pattern is sanitized and cut to the cap. */
  function Finish(cid: string): string {
    if MatchesPattern(cid) then cid
    else
      var s := Sanitize(cid);
      if |s| > 64 then s[..64] else s
  }

  function Encode(subject: string, run: string, tag: string): string {
    var safeRun := Sanitize(run);
    Finish(Pack(Truncate(subject, safeRun, tag), safeRun, tag))
  }

  /** encode_custom_id; hash stands for Python's salted hash of the model. */
  function EncodeCustomId(subject: string, run: string, model: string, tags: Tags, hash: nat): string {
    Encode(subject, run, match TagOf(tags, model) case Some(tag) => tag case None => FallbackTag(hash))
  }

  lemma FinishFits(cid: string)
    requires cid != ""
    ensures Fits(Finish(cid)) <==> !(cid[|cid| - 1] == '\n' && Fits(cid[..|cid| - 1]))
  {
    if cid[|cid| - 1] == '\n' {
      assert !Allowed(cid[|cid| - 1]);
    }
  }

  lemma AllowedConcat(a: string, b: string)
    ensures AllAllowed(a + b) <==> AllAllowed(a) && AllAllowed(b)
  {
    var ab := a + b;
    if AllAllowed(ab) {
      assert forall i :: 0 <= i < |a| ==> a[i] == ab[i];
      assert forall i :: 0 <= i < |b| ==> b[i] == ab[|a| + i];
    }
  }

  lemma PackAllowed(x: string, r: string, tag: string)
    requires AllAllowed(x) && AllAllowed(r)
    ensures |Pack(x, r, tag)| == |x| + |r| + |tag| + 4
    ensures AllAllowed(Pack(x, r, tag)) <==> AllAllowed(tag)
  {
    AllowedConcat(x, SEP);
    AllowedConcat(x + SEP, r);
    AllowedConcat(x + SEP + r, SEP);
    AllowedConcat(x + SEP + r + SEP, tag);
  }

  lemma PackInit(x: string, r: string, tag: string)
    ensures var cid := Pack(x, r, tag);
      && cid != ""
      && (tag != "" ==> cid[|cid| - 1] == tag[|tag| - 1] && cid[..|cid| - 1] == Pack(x, r, tag[..|tag| - 1]))
      && (tag == "" ==> cid[|cid| - 1] == '_')
  {
    var front := x + SEP + r + SEP;
    if tag != "" { assert (front + tag)[..|front + tag| - 1] == front + tag[..|tag| - 1]; }
  }

  /** The id fits the API, whatever subject and run are, exactly unless the tag ends in a
      newline that the pattern overlooks; so it does for every tag over the alphabet. */
  lemma EncodedFitsIff(subject: string, run: string, tag: string)
    ensures var safeRun := Sanitize(run);
      var cid := Pack(Truncate(subject, safeRun, tag), safeRun, tag);
      Fits(Encode(subject, run, tag)) <==>
        !(tag != "" && tag[|tag| - 1] == '\n' && AllAllowed(tag[..|tag| - 1]) && |cid| <= 65)
  {
    var safeRun := Sanitize(run);
    var x := Truncate(subject, safeRun, tag);
    PackInit(x, safeRun, tag);
    FinishFits(Pack(x, safeRun, tag));
    if tag != "" {
      PackAllowed(x, safeRun, tag[..|tag| - 1]);
    }
  }

  lemma EncodedFits(subject: string, run: string, tag: string)
    requires AllAllowed(tag)
    ensures Fits(Encode(subject, run, tag))
  {
    EncodedFitsIff(subject, run, tag);
    if tag != "" { assert Allowed(tag[|tag| - 1]); }
  }

  /** The input: a tag that ends in a newline. */
  lemma NewlineSlipsThrough()
    ensures !Fits(Encode("s", "r", "t\n"))
  {
    EncodedFitsIff("s", "r", "t\n");
    assert "t\n"[..1] == "t" && Sanitize("r") == "r";
  }

  // ── decode ──

  /** The first "__" at or after i, or the length. */
  function FirstSep(s: string, i: nat): (r: nat)
    requires i <= |s|
    ensures i <= r <= |s| && (r < |s| ==> r + 2 <= |s| && s[r] == '_' && s[r + 1] == '_')
    decreases |s| - i
  {
    if i + 1 >= |s| then |s|
    else if s[i] == '_' && s[i + 1] == '_' then i
    else FirstSep(s, i + 1)
  }

  /** str.split("__") */
  function Split(s: string): (r: seq<string>)
    ensures r != []
    decreases |s|
  {
    var i := FirstSep(s, 0);
    if i == |s| then [s] else [s[..i]] + Split(s[i + 2..])
  }

  datatype Result<T> = Ok(value: T) | ValueError(segments: nat)

  /** decode_custom_id */
  function DecodeCustomId(cid: string, tags: Tags): Result<(string, string, string)> {
    var parts := Split(cid);
    if |parts| != 3 then ValueError(|parts|)
    else Ok((parts[0], parts[1], ModelOf(tags, parts[2])))
  }

  /** No "__" in s. */
  predicate NoSep(s: string) { forall i :: 0 <= i && i + 1 < |s| ==> !(s[i] == '_' && s[i + 1] == '_') }

  /** A segment survives in front of a separator: no "__" inside, and no "_" at its end. */
  predicate Clean(x: string) { NoSep(x) && (x != "" ==> x[|x| - 1] != '_') }

  lemma {:induction false} FirstSepIs(s: string, i: nat, k: nat)
    requires i <= k <= |s| && (k < |s| ==> k + 2 <= |s| && s[k] == '_' && s[k + 1] == '_')
    requires forall j :: i <= j < k && j + 1 < |s| ==> !(s[j] == '_' && s[j + 1] == '_')
    ensures FirstSep(s, i) == k
    decreases k - i
  {
    if i < k && i + 1 < |s| { FirstSepIs(s, i + 1, k); }
  }

  lemma {:induction false} NoneBefore(s: string, i: nat, j: nat)
    requires i <= j && j + 1 < |s| && s[j] == '_' && s[j + 1] == '_'
    ensures FirstSep(s, i) <= j
    decreases j - i
  {
    if i < j { NoneBefore(s, i + 1, j); }
  }

  /** A clean segment is split off, ... */
  lemma SplitOff(x: string, rest: string)
    requires Clean(x)
    ensures Split(x + SEP + rest) == [x] + Split(rest)
  {
    var s := x + SEP + rest;
    FirstSepIs(s, 0, |x|);
    assert s[..|x|] == x && s[|x| + 2..] == rest;
  }

  /** ... and another one is cut short. */
  lemma CutShort(x: string, rest: string)
    requires !Clean(x)
    ensures |Split(x + SEP + rest)[0]| < |x|
  {
    var s := x + SEP + rest;
    var j: nat := if x != "" && x[|x| - 1] == '_' then |x| - 1
                  else var i :| 0 <= i && i + 1 < |x| && x[i] == '_' && x[i + 1] == '_'; i;
    assert s[j] == '_' && s[j + 1] == '_';
    NoneBefore(s, 0, j);
  }

  lemma SplitWhole(t: string)
    ensures Split(t) == [t] <==> NoSep(t)
  {
    if NoSep(t) {
      FirstSepIs(t, 0, |t|);
    } else {
      var j :| 0 <= j && j + 1 < |t| && t[j] == '_' && t[j + 1] == '_';
      NoneBefore(t, 0, j);
    }
  }

  lemma PackIs(x: string, r: string, t: string)
    ensures Pack(x, r, t) == x + SEP + (r + SEP + t)
  {
  }

  /** Three segments come back from splitting exactly if the first two are clean and the tag
      has no separator inside. */
  lemma SplitPackIff(x: string, r: string, t: string)
    ensures Split(Pack(x, r, t)) == [x, r, t] <==> Clean(x) && Clean(r) && NoSep(t)
  {
    PackIs(x, r, t);
    if !Clean(x) {
      CutShort(x, r + SEP + t);
    } else {
      SplitOff(x, r + SEP + t);
      var parts := Split(r + SEP + t);
      assert [x] + parts == [x, r, t] <==> parts == [r, t] by {
        if [x] + parts == [x, r, t] { assert ([x] + parts)[1..] == parts && [x, r, t][1..] == [r, t]; }
        if parts == [r, t] { assert [x] + [r, t] == [x, r, t]; }
      }
      if !Clean(r) {
        CutShort(r, t);
      } else {
        SplitOff(r, t);
        SplitWhole(t);
        assert [r] + Split(t) == [r, t] <==> Split(t) == [t] by {
          if [r] + Split(t) == [r, t] { assert ([r] + Split(t))[1..] == Split(t) && [r, t][1..] == [t]; }
        }
      }
    }
  }

  lemma SplitParts(s: string) returns (rest: string)
    requires |Split(s)| > 1
    ensures s == Split(s)[0] + SEP + rest && Split(rest) == Split(s)[1..]
  {
    var i := FirstSep(s, 0);
    rest := s[i + 2..];
    assert s == s[..i] + SEP + rest;
    assert ([s[..i]] + Split(rest))[1..] == Split(rest);
  }

  lemma SplitOne(s: string)
    requires |Split(s)| == 1
    ensures Split(s)[0] == s
  {
  }

  /** Segments joined again give the text that was split. */
  lemma ThreeParts(s: string)
    requires |Split(s)| == 3
    ensures s == Pack(Split(s)[0], Split(s)[1], Split(s)[2])
  {
    var rest := SplitParts(s);
    var last := SplitParts(rest);
    SplitOne(last);
    PackIs(Split(s)[0], Split(s)[1], Split(s)[2]);
  }

  lemma PackDetermines(x: string, r: string, t: string, u: string)
    requires Pack(x, r, t) == Pack(x, r, u)
    ensures t == u
  {
    var n := |x| + |r| + 4;
    assert Pack(x, r, t)[n..] == t && Pack(x, r, u)[n..] == u;
  }

  /** Decoding a packed id gives its three segments back exactly under that condition. */
  lemma DecodePackIff(x: string, r: string, t: string, tags: Tags, model: string)
    requires ModelOf(tags, t) == model
    ensures DecodeCustomId(Pack(x, r, t), tags) == Ok((x, r, model)) <==> Clean(x) && Clean(r) && NoSep(t)
  {
    var cid := Pack(x, r, t);
    SplitPackIff(x, r, t);
    if DecodeCustomId(cid, tags) == Ok((x, r, model)) {
      ThreeParts(cid);
      PackDetermines(x, r, t, Split(cid)[2]);
      assert Split(cid) == [x, r, t];
    }
  }

  /** The three segments survive exactly if the id was not cut and they are clean, for all
      subjects, runs and tags over the alphabet. */
  lemma SegmentsComeBackIff(subject: string, run: string, tag: string)
    requires AllAllowed(tag)
    ensures var x, r := Truncate(subject, Sanitize(run), tag), Sanitize(run);
      Split(Encode(subject, run, tag)) == [x, r, tag] <==>
      |x| + |r| + |tag| + 4 <= 64 && Clean(x) && Clean(r) && NoSep(tag)
  {
    var x, r := Truncate(subject, Sanitize(run), tag), Sanitize(run);
    var cid, id := Pack(x, r, tag), Encode(subject, run, tag);
    PackAllowed(x, r, tag);
    if |cid| <= 64 {
      SplitPackIff(x, r, tag);
    } else {
      PackInit(x, r, tag);
      assert AllAllowed(cid) && id == cid[..64];
      if Split(id) == [x, r, tag] {
        ThreeParts(id);
        assert false;
      }
    }
  }

  /** Round trip: for a registered model whose distinct tag is over the alphabet, and as long
      as the id fits, decoding gives back the truncated sanitized subject, the sanitized run
      and the model exactly if no segment contains "__" and neither of the first two ends in
      "_". (The documentation promises it without that condition.) */
  lemma RoundTripIff(subject: string, run: string, model: string, tags: Tags, hash: nat)
    requires DistinctTags(tags) && TagOf(tags, model).Some? && AllAllowed(TagOf(tags, model).value)
    requires var tag := TagOf(tags, model).value;
      |Truncate(subject, Sanitize(run), tag)| + |run| + |tag| + 4 <= 64
    ensures var tag := TagOf(tags, model).value;
      var x, r := Truncate(subject, Sanitize(run), tag), Sanitize(run);
      DecodeCustomId(EncodeCustomId(subject, run, model, tags, hash), tags) == Ok((x, r, model)) <==>
      Clean(x) && Clean(r) && NoSep(tag)
  {
    var tag := TagOf(tags, model).value;
    var x, r := Truncate(subject, Sanitize(run), tag), Sanitize(run);
    PackAllowed(x, r, tag);
    TagsReadBack(tags, model);
    DecodePackIff(x, r, tag, tags, model);
  }

  /** The id fits whenever run and tag leave the subject at least its 8 characters; a subject
      that needs no truncation comes back whole. */
  lemma ShortRunsFit(subject: string, run: string, tag: string)
    requires |run| + |tag| + 4 <= 56
    ensures var x := Truncate(subject, Sanitize(run), tag);
      && |x| + |run| + |tag| + 4 <= 64
      && x <= Sanitize(subject)
      && (|subject| + |run| + |tag| + 4 <= 64 ==> x == Sanitize(subject))
  {
  }

  /** A subject is cut no more than needed: what is left of it fills the id, or is the eight
      characters that are always kept. */
  lemma TruncatesAsNeeded(subject: string, run: string, tag: string)
    ensures var x := Truncate(subject, run, tag);
      && x <= Sanitize(subject)
      && (x != Sanitize(subject) ==> |x| == 8 || (|x| > 8 && |x| + |run| + |tag| + 4 == 64))
  {
  }

  /** s with every character outside the alphabet replaced by a hyphen. */
  predicate Replaces(s: string, r: string) {
    && |r| == |s|
    && forall i :: 0 <= i < |s| ==> if Allowed(s[i]) then r[i] == s[i] else r[i] == '-'
  }

  /** An id with room for everything is subject, run and tag in this order, the first two with
      every other character replaced, two underscores between them. */
  lemma PackedAs(subject: string, run: string, tag: string) returns (x: string, r: string)
    requires AllAllowed(tag) && |subject| + |run| + |tag| + 4 <= 64
    ensures Replaces(subject, x) && Replaces(run, r)
    ensures Encode(subject, run, tag) == x + "__" + r + "__" + tag
  {
    x, r := Sanitize(subject), Sanitize(run);
    PackAllowed(x, r, tag);
    assert Truncate(subject, r, tag) == x;
  }

  /** So ids that satisfy the condition are told apart, up to sanitizing and truncation. */
  lemma IdsAreDistinct(x1: string, r1: string, t1: string, x2: string, r2: string, t2: string)
    requires Clean(x1) && Clean(r1) && NoSep(t1) && Clean(x2) && Clean(r2) && NoSep(t2)
    requires Pack(x1, r1, t1) == Pack(x2, r2, t2)
    ensures x1 == x2 && r1 == r2 && t1 == t2
  {
    SplitPackIff(x1, r1, t1);
    SplitPackIff(x2, r2, t2);
    assert [x1, r1, t1][0] == x1 && [x1, r1, t1][1] == r1 && [x1, r1, t1][2] == t1;
    assert [x2, r2, t2][0] == x2 && [x2, r2, t2][1] == r2 && [x2, r2, t2][2] == t2;
  }

  /** A subject that ends in "_" is not given back. */
  lemma UnderscoreIsLost(tags: Tags)
    requires tags == [("claude", "c1")]
    ensures DecodeCustomId(EncodeCustomId("a_", "r", "claude", tags, 0), tags) != Ok(("a_", "r", "claude"))
  {
    assert Truncate("a_", Sanitize("r"), "c1") == "a_";
    RoundTripIff("a_", "r", "claude", tags, 0);
  }
}
