/** The citation scanner of src/krepis/llm_trace.py: which known ids a text cites, in markers
    such as "[c1]" or "[c1, c3]". */
module Citations {
  import opened Prelude
  import opened Occurrences

  predicate CidChar(c: char) {
    'A' <= c <= 'Z' || 'a' <= c <= 'z' || '0' <= c <= '9' || c == '_' || c == '.' || c == '-'
  }

  /** Where the ranges of the pattern end. */
  lemma CidCharEnds()
    ensures CidChar('A') && CidChar('Z') && CidChar('a') && CidChar('z') && CidChar('0') && CidChar('9')
    ensures !CidChar('@') && !CidChar('[') && !CidChar('`') && !CidChar('{') && !CidChar('/') && !CidChar(':')
  {
  }

  predicate ValidCid(s: string) { 1 <= |s| <= 64 && forall k :: 0 <= k < |s| ==> CidChar(s[k]) }

  // ── str.strip and str.split(",") on a stretch t[i..e] ──

  /** t[i..e].strip() */
  function Strip(t: string, i: nat, e: nat): string
    requires i <= e <= |t|
    decreases e - i
  {
    if i < e && IsSpace(t[i]) then Strip(t, i + 1, e)
    else if i < e && IsSpace(t[e - 1]) then Strip(t, i, e - 1)
    else t[i..e]
  }

  /** The first comma of t[i..e], or e. */
  function CommaOrEnd(t: string, i: nat, e: nat): (r: nat)
    requires i <= e <= |t|
    ensures i <= r <= e && (r < e ==> t[r] == ',')
    decreases e - i
  {
    if i < e && t[i] != ',' then CommaOrEnd(t, i + 1, e) else i
  }

  /** [f.strip() for f in t[i..e].split(",")] */
  function Fields(t: string, i: nat, e: nat): List<string>
    requires i <= e <= |t|
    decreases e - i
  {
    var c := CommaOrEnd(t, i, e);
    Cons(Strip(t, i, c), if c < e then Fields(t, c + 1, e) else Nil)
  }

  // ── what a marker is ──

  /** Each comma-separated field of t[i..e], stripped, is a cid. */
  predicate AllCids(t: string, i: nat, e: nat)
    requires i <= e <= |t|
    decreases e - i
  {
    var c := CommaOrEnd(t, i, e);
    ValidCid(Strip(t, i, c)) && (c < e ==> AllCids(t, c + 1, e))
  }

  lemma {:induction false} AllCidsMeaning(t: string, i: nat, e: nat)
    requires i <= e <= |t|
    ensures AllCids(t, i, e) <==> AllValid(Fields(t, i, e))
    decreases e - i
  {
    var c := CommaOrEnd(t, i, e);
    if c < e { AllCidsMeaning(t, c + 1, e); }
  }

  predicate AllValid(cids: List<string>) { cids.Cons? ==> ValidCid(cids.head) && AllValid(cids.tail) }

  /** text[i..j] is a bracketed list of cids. */
  predicate IsMarker(text: string, i: nat, j: nat) {
    i + 2 <= j <= |text| && text[i] == '[' && text[j - 1] == ']' && AllCids(text, i + 1, j - 1)
  }

  // ── the pattern: "[", items separated by commas, "]", each item a cid between blanks ──

  function SkipSpace(t: string, i: nat): (r: nat)
    requires i <= |t|
    ensures i <= r <= |t|
    decreases |t| - i
  {
    if i < |t| && IsSpace(t[i]) then SkipSpace(t, i + 1) else i
  }

  function CidEnd(t: string, i: nat): (r: nat)
    requires i <= |t|
    ensures i <= r <= |t|
    decreases |t| - i
  {
    if i < |t| && CidChar(t[i]) then CidEnd(t, i + 1) else i
  }

  /** The end of an item: blanks, 1 to 64 cid characters, blanks. */
  function ItemEnd(t: string, i: nat): (r: Option<nat>)
    requires i <= |t|
    ensures r.Some? ==> i < r.value < |t|
  {
    var a := SkipSpace(t, i);
    var b := CidEnd(t, a);
    var c := SkipSpace(t, b);
    if 1 <= b - a <= 64 && c < |t| then Some(c) else None
  }

  /** The end of a match whose next item starts at i. The classes of characters involved
      are disjoint, so the pattern can be read in one way only. */
  function MatchItems(t: string, i: nat): (r: Option<nat>)
    requires i <= |t|
    ensures r.Some? ==> i < r.value <= |t|
    decreases |t| - i
  {
    match ItemEnd(t, i)
    case None => None
    case Some(c) =>
      if t[c] == ']' then Some(c + 1)
      else if t[c] == ',' then MatchItems(t, c + 1)
      else None
  }

  function MatchAt(t: string, i: nat): (r: Option<nat>)
    requires i < |t|
    ensures r.Some? ==> i + 2 <= r.value <= |t|
  {
    if t[i] == '[' then MatchItems(t, i + 1) else None
  }

  // ── reading blanks and cids ──

  predicate Blank(t: string, i: nat, e: nat) { i <= e <= |t| && forall k :: i <= k < e ==> IsSpace(t[k]) }

  predicate Cids(t: string, i: nat, e: nat) { i <= e <= |t| && forall k :: i <= k < e ==> CidChar(t[k]) }

  lemma Classes(c: char)
    ensures CidChar(c) ==> !IsSpace(c) && c != ',' && c != '[' && c != ']'
    ensures IsSpace(c) ==> c != ',' && c != '[' && c != ']'
  {
  }

  lemma {:induction false} SkipSpaceReads(t: string, i: nat)
    requires i <= |t|
    ensures Blank(t, i, SkipSpace(t, i))
    decreases |t| - i
  {
    if i < |t| && IsSpace(t[i]) { SkipSpaceReads(t, i + 1); }
  }

  lemma {:induction false} SkipSpaceIs(t: string, i: nat, a: nat)
    requires Blank(t, i, a) && (a < |t| ==> !IsSpace(t[a]))
    ensures SkipSpace(t, i) == a
    decreases a - i
  {
    if i < a { SkipSpaceIs(t, i + 1, a); }
  }

  /** Stripping cuts blanks off both ends. */
  lemma {:induction false} StripCuts(t: string, i: nat, e: nat) returns (a: nat, b: nat)
    requires i <= e <= |t|
    ensures Blank(t, i, a) && a <= b && Blank(t, b, e) && Strip(t, i, e) == t[a..b]
    decreases e - i
  {
    if i < e && IsSpace(t[i]) {
      a, b := StripCuts(t, i + 1, e);
    } else if i < e && IsSpace(t[e - 1]) {
      a, b := StripCuts(t, i, e - 1);
    } else {
      a, b := i, e;
    }
  }

  lemma {:induction false} CidEndReads(t: string, i: nat)
    requires i <= |t|
    ensures Cids(t, i, CidEnd(t, i))
    decreases |t| - i
  {
    if i < |t| && CidChar(t[i]) { CidEndReads(t, i + 1); }
  }

  lemma {:induction false} CidEndIs(t: string, a: nat, b: nat)
    requires Cids(t, a, b) && (b < |t| ==> !CidChar(t[b]))
    ensures CidEnd(t, a) == b
    decreases b - a
  {
    if a < b { CidEndIs(t, a + 1, b); }
  }

  lemma CidSlice(t: string, a: nat, b: nat)
    requires a <= b <= |t|
    ensures ValidCid(t[a..b]) <==> 1 <= b - a <= 64 && Cids(t, a, b)
  {
    var s := t[a..b];
    if ValidCid(s) {
      forall k | a <= k < b
        ensures CidChar(t[k])
      {
        assert t[k] == s[k - a];
      }
    }
  }

  /** Neither blanks nor cids hold any punctuation. */
  predicate Plain(t: string, i: nat, c: nat) {
    i <= c <= |t| && forall k :: i <= k < c ==> t[k] != ',' && t[k] != '[' && t[k] != ']'
  }

  lemma PlainPiece(t: string, i: nat, c: nat)
    requires Blank(t, i, c) || Cids(t, i, c)
    ensures Plain(t, i, c)
  {
    forall k | i <= k < c
      ensures t[k] != ',' && t[k] != '[' && t[k] != ']'
    {
      Classes(t[k]);
    }
  }

  /** A cid between blanks is what stripping leaves. */
  lemma {:induction false} StripIs(t: string, i: nat, a: nat, b: nat, e: nat)
    requires Blank(t, i, a) && a < b && Cids(t, a, b) && Blank(t, b, e)
    ensures Strip(t, i, e) == t[a..b]
    decreases e - i
  {
    if i < a {
      StripIs(t, i + 1, a, b, e);
    } else {
      Classes(t[a]);
      Classes(t[b - 1]);
      if b < e { StripIs(t, i, a, b, e - 1); }
    }
  }

  // ── the pattern finds exactly the markers ──

  /** An item of the pattern is a field that strips to a cid, ... */
  lemma ItemReads(t: string, i: nat, c: nat)
    requires i <= |t| && ItemEnd(t, i) == Some(c)
    ensures ValidCid(Strip(t, i, c)) && Plain(t, i, c)
  {
    var a := SkipSpace(t, i);
    var b := CidEnd(t, a);
    SkipSpaceReads(t, i);
    CidEndReads(t, a);
    SkipSpaceReads(t, b);
    PlainPiece(t, i, a);
    PlainPiece(t, a, b);
    PlainPiece(t, b, c);
    StripIs(t, i, a, b, c);
    CidSlice(t, a, b);
  }

  /** ... and such a field is read by the pattern up to the end of the field. */
  lemma FieldIsItem(t: string, i: nat, e: nat)
    requires i <= e < |t| && (t[e] == ',' || t[e] == ']') && ValidCid(Strip(t, i, e))
    ensures ItemEnd(t, i) == Some(e)
  {
    var a, b := StripCuts(t, i, e);
    CidSlice(t, a, b);
    Classes(t[a]);
    Classes(t[e]);
    Classes(t[b]);
    SkipSpaceIs(t, i, a);
    CidEndIs(t, a, b);
    SkipSpaceIs(t, b, e);
  }

  lemma {:induction false} CommaIs(t: string, i: nat, c: nat, e: nat)
    requires i <= c <= e <= |t| && (forall k :: i <= k < c ==> t[k] != ',') && (c < e ==> t[c] == ',')
    ensures CommaOrEnd(t, i, e) == c
    decreases c - i
  {
    if i < c { CommaIs(t, i + 1, c, e); }
  }

  predicate NoOpen(t: string, i: nat, j: nat) { forall k :: i <= k < j <= |t| ==> t[k] != '[' }

  /** A match takes its first item as a field and goes on behind the comma, or ends. */
  lemma MatchItemsStep(t: string, i: nat, j: nat) returns (c: nat)
    requires i <= |t| && MatchItems(t, i) == Some(j)
    ensures Plain(t, i, c) && c < j <= |t| && ValidCid(Strip(t, i, c))
    ensures (t[c] == ']' && j == c + 1) || (t[c] == ',' && MatchItems(t, c + 1) == Some(j))
  {
    c := ItemEnd(t, i).value;
    ItemReads(t, i, c);
  }

  lemma SoundStep(t: string, i: nat, c: nat, e: nat)
    requires Plain(t, i, c) && c < e < |t| && ValidCid(Strip(t, i, c))
    requires t[c] == ',' && AllCids(t, c + 1, e)
    ensures AllCids(t, i, e)
  {
    CommaIs(t, i, c, e);
  }

  lemma {:induction false} MatchItemsSound(t: string, i: nat, j: nat)
    requires i <= |t| && MatchItems(t, i) == Some(j)
    ensures i < j <= |t| && t[j - 1] == ']' && AllCids(t, i, j - 1)
    decreases |t| - i
  {
    var c := MatchItemsStep(t, i, j);
    if t[c] == ',' {
      MatchItemsSound(t, c + 1, j);
      SoundStep(t, i, c, j - 1);
    } else {
      LastItem(t, i, c);
    }
  }

  lemma LastItem(t: string, i: nat, c: nat)
    requires Plain(t, i, c) && c < |t| && ValidCid(Strip(t, i, c))
    ensures AllCids(t, i, c)
  {
    CommaIs(t, i, c, c);
  }

  lemma {:induction false} NoOpenInside(t: string, i: nat, j: nat)
    requires i <= |t| && MatchItems(t, i) == Some(j)
    ensures NoOpen(t, i, j)
    decreases |t| - i
  {
    var c := MatchItemsStep(t, i, j);
    if t[c] == ',' { NoOpenInside(t, c + 1, j); }
  }

  lemma {:induction false} MatchItemsComplete(t: string, i: nat, e: nat)
    requires i <= e < |t| && t[e] == ']' && AllCids(t, i, e)
    ensures MatchItems(t, i) == Some(e + 1)
    decreases e - i
  {
    var c := CommaOrEnd(t, i, e);
    FieldIsItem(t, i, c);
    if c < e { MatchItemsComplete(t, c + 1, e); }
  }

  lemma MarkerIsMatch(t: string, i: nat, j: nat)
    requires IsMarker(t, i, j)
    ensures MatchAt(t, i) == Some(j)
  {
    MatchItemsComplete(t, i + 1, j - 1);
  }

  lemma MatchIsMarker(t: string, i: nat, j: nat)
    requires i < |t| && MatchAt(t, i) == Some(j)
    ensures IsMarker(t, i, j)
  {
    MatchItemsSound(t, i + 1, j);
  }

  /** The pattern matches at a position exactly the marker that starts there; a marker has
      no bracket inside, so matches cannot hide one another. */
  lemma MatchesAreMarkers(t: string, i: nat, j: nat)
    requires i < |t|
    ensures MatchAt(t, i) == Some(j) <==> IsMarker(t, i, j)
    ensures MatchAt(t, i) == Some(j) ==> NoOpen(t, i + 1, j)
  {
    if IsMarker(t, i, j) { MarkerIsMatch(t, i, j); }
    if MatchAt(t, i) == Some(j) {
      MatchItemsSound(t, i + 1, j);
      NoOpenInside(t, i + 1, j);
    }
  }

  /** The cids of the match at i, if there is one. */
  function CidsAt(t: string, i: nat): List<string>
    requires i < |t|
  {
    match MatchAt(t, i)
    case None => Nil
    case Some(j) => Fields(t, i + 1, j - 1)
  }

  /** The cids at i are the fields of the marker that starts there, ... */
  lemma CidsOfMarker(t: string, i: nat, j: nat)
    requires IsMarker(t, i, j)
    ensures CidsAt(t, i) == Fields(t, i + 1, j - 1)
  {
    MarkerIsMatch(t, i, j);
  }

  /** ... or none if there is no such marker. */
  lemma NoMarkerNoCids(t: string, i: nat)
    requires i < |t| && forall j: nat :: !IsMarker(t, i, j)
    ensures CidsAt(t, i) == Nil
  {
    if MatchAt(t, i).Some? { MatchIsMarker(t, i, MatchAt(t, i).value); }
  }

  function CidsOf(t: string): nat -> List<string> { (k: nat) => if k < |t| then CidsAt(t, k) else Nil }

  /** The cids of all markers of a text, in order. */
  function AllCidsOf(t: string): List<string> { Gather(CidsOf(t), 0, |t|) }

  // ── the capture group leaves out the blanks at either end ──

  lemma {:induction false} CommaReads(t: string, i: nat, e: nat)
    requires i <= e <= |t|
    ensures forall k :: i <= k < CommaOrEnd(t, i, e) ==> t[k] != ','
    decreases e - i
  {
    if i < e && t[i] != ',' { CommaReads(t, i + 1, e); }
  }

  lemma TrimHead(t: string, i: nat, e: nat)
    requires i < e <= |t| && IsSpace(t[i])
    ensures Fields(t, i, e) == Fields(t, i + 1, e)
  {
    Classes(t[i]);
  }

  lemma {:induction false} StripTail(t: string, i: nat, e: nat)
    requires i < e <= |t| && IsSpace(t[e - 1])
    ensures Strip(t, i, e) == Strip(t, i, e - 1)
    decreases e - i
  {
    if IsSpace(t[i]) && i + 1 < e { StripTail(t, i + 1, e); }
  }

  lemma {:induction false} TrimTail(t: string, i: nat, e: nat)
    requires i < e <= |t| && IsSpace(t[e - 1])
    ensures Fields(t, i, e) == Fields(t, i, e - 1)
    decreases e - i
  {
    Classes(t[e - 1]);
    CommaReads(t, i, e);
    var c := CommaOrEnd(t, i, e);
    if c == e {
      CommaIs(t, i, e - 1, e - 1);
      StripTail(t, i, e);
    } else {
      CommaIs(t, i, c, e - 1);
      TrimTail(t, c + 1, e);
    }
  }

  lemma {:induction false} TrimHeads(t: string, i: nat, a: nat, e: nat)
    requires Blank(t, i, a) && a <= e <= |t|
    ensures Fields(t, i, e) == Fields(t, a, e)
    decreases a - i
  {
    if i < a {
      TrimHead(t, i, e);
      TrimHeads(t, i + 1, a, e);
    }
  }

  lemma {:induction false} TrimTails(t: string, a: nat, b: nat, e: nat)
    requires a <= b && Blank(t, b, e)
    ensures Fields(t, a, e) == Fields(t, a, b)
    decreases e - b
  {
    if b < e {
      TrimTail(t, a, e);
      TrimTails(t, a, b, e - 1);
    }
  }

  /** s is the stretch t[i..e], character by character. */
  ghost predicate Reads(t: string, i: nat, e: nat, s: string) {
    i <= e <= |t| && |s| == e - i && forall k :: 0 <= k < |s| ==> s[k] == t[i + k]
  }

  lemma SliceLocal(t: string, i: nat, j: nat, c: nat, e: nat, s: string)
    requires Reads(t, i, e, s) && i <= j <= c <= e
    ensures t[j..c] == s[j - i..c - i]
  {
  }

  lemma {:induction false} StripLocal(t: string, i: nat, j: nat, c: nat, e: nat, s: string)
    requires Reads(t, i, e, s) && i <= j <= c <= e
    ensures Strip(t, j, c) == Strip(s, j - i, c - i)
    decreases c - j
  {
    if j < c && IsSpace(s[j - i]) {
      StripLocal(t, i, j + 1, c, e, s);
    } else if j < c && IsSpace(s[c - 1 - i]) {
      StripLocal(t, i, j, c - 1, e, s);
    } else {
      SliceLocal(t, i, j, c, e, s);
    }
  }

  lemma {:induction false} CommaLocal(t: string, i: nat, j: nat, e: nat, s: string)
    requires Reads(t, i, e, s) && i <= j <= e
    ensures CommaOrEnd(t, j, e) == CommaOrEnd(s, j - i, e - i) + i
    decreases e - j
  {
    if j < e && s[j - i] != ',' { CommaLocal(t, i, j + 1, e, s); }
  }

  /** Fields only depend on the stretch they are read from. */
  lemma {:induction false} FieldsLocal(t: string, i: nat, j: nat, e: nat, s: string)
    requires Reads(t, i, e, s) && i <= j <= e
    ensures Fields(t, j, e) == Fields(s, j - i, e - i)
    decreases e - j
  {
    var c := CommaOrEnd(t, j, e);
    CommaLocal(t, i, j, e, s);
    StripLocal(t, i, j, c, e, s);
    if c < e { FieldsLocal(t, i, c + 1, e, s); }
  }

  lemma TrimmedFields(t: string, i: nat, a: nat, b: nat, e: nat, group: string)
    requires Blank(t, i, a) && a <= b && Blank(t, b, e) && group == t[a..b]
    ensures Fields(group, 0, |group|) == Fields(t, i, e)
  {
    TrimHeads(t, i, a, e);
    TrimTails(t, a, b, e);
    FieldsLocal(t, a, a, b, group);
  }

  /** Splitting the capture group gives the fields of the whole marker. */
  lemma GroupFields(t: string, i: nat, e: nat, group: string)
    requires i <= e <= |t| && group == Strip(t, i, e)
    ensures Fields(group, 0, |group|) == Fields(t, i, e)
  {
    var a, b := StripCuts(t, i, e);
    TrimmedFields(t, i, a, b, e, group);
  }

  // ── the code ──

  /** What the loop does with the fields of one match. */
  method AddCited(fields: List<string>, known: set<string>, found: seq<string>) returns (r: seq<string>)
    ensures r == AddAll(found, fields, known)
  {
    r := found;
    var rest := fields;
    while rest.Cons?
      invariant AddAll(found, fields, known) == AddAll(r, rest, known)
      decreases rest
    {
      var cid := rest.head;
      if cid in known && cid !in r { r := r + [cid]; }
      rest := rest.tail;
    }
  }

  lemma NotOpen(t: string, k: nat)
    requires k < |t| && t[k] != '['
    ensures CidsOf(t)(k) == Nil
  {
  }

  lemma MatchedCids(t: string, pos: nat, end: nat)
    requires pos < |t| && MatchAt(t, pos) == Some(end)
    ensures CidsOf(t)(pos) == Fields(t, pos + 1, end - 1)
  {
  }

  /** No marker hides between the start and the end of a match. */
  lemma NothingInside(t: string, at: nat -> List<string>, pos: nat, end: nat)
    requires at == CidsOf(t) && pos < |t| && MatchAt(t, pos) == Some(end)
    ensures forall k :: pos < k < end ==> at(k) == Nil
  {
    NoOpenInside(t, pos + 1, end);
    forall k | pos + 1 <= k < end
      ensures at(k) == Nil
    {
      NotOpen(t, k);
    }
  }

  /** What the pattern finds at pos: a match's cids and its end, or nothing. */
  predicate FindsAt(t: string, pos: nat, next: nat, cids: List<string>)
    requires pos < |t|
  {
    match MatchAt(t, pos)
    case None => next == pos + 1 && cids == Nil
    case Some(end) => next == end && cids == Fields(t, pos + 1, end - 1)
  }

  /** One step of the search: the cids found here, and where to go on. */
  lemma SearchStep(t: string, at: nat -> List<string>, pos: nat, next: nat, cids: List<string>)
    requires at == CidsOf(t) && pos < |t| && FindsAt(t, pos, next, cids)
    ensures pos < next <= |t| && Gather(at, pos, |t|) == Append(cids, Gather(at, next, |t|))
  {
    if MatchAt(t, pos).Some? {
      MatchedCids(t, pos, next);
      NothingInside(t, at, pos, next);
    }
    GatherStep(at, pos, next, |t|);
  }

  /** The fields of a match: its capture group, split and stripped. */
  method FieldsOf(text: string, i: nat, e: nat) returns (fields: List<string>)
    requires i <= e <= |text|
    ensures fields == Fields(text, i, e)
  {
    var group := Strip(text, i, e);
    GroupFields(text, i, e, group);
    fields := Fields(group, 0, |group|);
  }

  method TryAt(text: string, pos: nat) returns (next: nat, cids: List<string>)
    requires pos < |text|
    ensures FindsAt(text, pos, next, cids)
  {
    next, cids := pos + 1, Nil;
    var m := MatchAt(text, pos);
    if m.Some? {
      next := m.value;
      cids := FieldsOf(text, pos + 1, next - 1);
    }
  }

  lemma ScanStep(t: string, at: nat -> List<string>, pos: nat, next: nat, cids: List<string>, found: seq<string>,
                 known: set<string>)
    requires at == CidsOf(t) && pos < |t| && FindsAt(t, pos, next, cids)
    ensures pos < next <= |t|
    ensures AddAll(found, Gather(at, pos, |t|), known)
      == AddAll(AddAll(found, cids, known), Gather(at, next, |t|), known)
  {
    SearchStep(t, at, pos, next, cids);
    AddAllAppend(found, cids, Gather(at, next, |t|), known);
  }

  /** cited_cids: the known cids among those of all markers, in order of first citation. */
  method CitedCids(text: string, known: set<string>) returns (found: seq<string>)
    ensures found == FirstKnown(AllCidsOf(text), known)
  {
    found := [];
    ghost var at := CidsOf(text);
    ghost var want := AddAll([], Gather(at, 0, |text|), known);
    var pos := 0;
    while pos < |text|
      invariant 0 <= pos <= |text|
      invariant want == AddAll(found, Gather(at, pos, |text|), known)
    {
      var next, cids := TryAt(text, pos);
      ScanStep(text, at, pos, next, cids, found, known);
      found := AddCited(cids, known, found);
      pos := next;
    }
  }

  /** Some marker that starts at k names the cid. */
  ghost predicate Names(t: string, k: nat, cid: string) {
    exists j: nat :: IsMarker(t, k, j) && In(cid, Fields(t, k + 1, j - 1))
  }

  lemma CidsAtMeaning(t: string, i: nat, cid: string)
    requires i < |t|
    ensures In(cid, CidsAt(t, i)) <==> Names(t, i, cid)
  {
    if j: nat :| IsMarker(t, i, j) {
      CidsOfMarker(t, i, j);
      forall k: nat | IsMarker(t, i, k)
        ensures k == j
      {
        MarkerIsMatch(t, i, j);
        MarkerIsMatch(t, i, k);
      }
    } else {
      NoMarkerNoCids(t, i);
    }
  }

  /** Sound and complete: what is cited is exactly the known cids that some marker names. */
  lemma CitedMeaning(t: string, known: set<string>, cid: string)
    ensures cid in FirstKnown(AllCidsOf(t), known) <==>
      cid in known && exists k :: 0 <= k < |t| && Names(t, k, cid)
  {
    FirstKnownMeaning(AllCidsOf(t), known);
    GatherIn(CidsOf(t), 0, |t|, cid);
    forall k | 0 <= k < |t|
      ensures In(cid, CidsOf(t)(k)) <==> Names(t, k, cid)
    {
      CidsAtMeaning(t, k, cid);
    }
  }

  // ── markers as they are printed ──

  /** ", ".join(cids) */
  function Commas(cids: List<string>): string
    requires cids.Cons?
  {
    if cids.tail.Nil? then cids.head else cids.head + ", " + Commas(cids.tail)
  }

  function Print(cids: List<string>): string
    requires cids.Cons?
  {
    "[" + Commas(cids) + "]"
  }

  /** Some prose, then a marker. */
  datatype Passage = Passage(prose: string, cids: List<string>)

  predicate Printable(p: Passage) { '[' !in p.prose && p.cids.Cons? && AllValid(p.cids) }

  function PrintAll(ps: List<Passage>, tail: string): string
    requires AllPrintable(ps)
  {
    match ps
    case Nil => tail
    case Cons(p, rest) => p.prose + (Print(p.cids) + PrintAll(rest, tail))
  }

  predicate AllPrintable(ps: List<Passage>) { ps.Cons? ==> Printable(ps.head) && AllPrintable(ps.tail) }

  function AllPrinted(ps: List<Passage>): List<string> {
    match ps
    case Nil => Nil
    case Cons(p, rest) => Append(p.cids, AllPrinted(rest))
  }

  lemma OneField(t: string, i: nat, e: nat, cid: string)
    requires i <= e <= |t| && t[i..e] == cid && ValidCid(cid)
    ensures Fields(t, i, e) == Cons(cid, Nil)
  {
    CidSlice(t, i, e);
    PlainPiece(t, i, e);
    CommaIs(t, i, e, e);
    StripIs(t, i, i, e, e);
  }

  lemma FirstField(t: string, i: nat, c: nat, e: nat, cid: string)
    requires i <= c && c + 2 <= e <= |t| && t[i..c] == cid && ValidCid(cid) && t[c] == ',' && t[c + 1] == ' '
    ensures Fields(t, i, e) == Cons(cid, Fields(t, c + 2, e))
  {
    CidSlice(t, i, c);
    PlainPiece(t, i, c);
    CommaIs(t, i, c, e);
    StripIs(t, i, i, c, c);
    TrimHead(t, c + 1, e);
  }

  /** Printed cids read back, wherever the list stands in the text. */
  lemma {:induction false} CommasReadBack(t: string, i: nat, e: nat, cids: List<string>)
    requires i <= e <= |t| && cids.Cons? && AllValid(cids) && t[i..e] == Commas(cids)
    ensures Fields(t, i, e) == cids
    decreases cids
  {
    if cids.tail.Nil? {
      OneField(t, i, e, cids.head);
    } else {
      var c := i + |cids.head|;
      CutAtComma(t, i, e, cids.head, Commas(cids.tail));
      FirstField(t, i, c, e, cids.head);
      CommasReadBack(t, c + 2, e, cids.tail);
    }
  }

  lemma CutAtComma(t: string, i: nat, e: nat, first: string, rest: string)
    requires i <= e <= |t| && t[i..e] == first + ", " + rest
    ensures var c := i + |first|;
      c + 2 <= e && t[i..c] == first && t[c] == ',' && t[c + 1] == ' ' && t[c + 2..e] == rest
  {
    assert forall k :: i <= k < e ==> t[k] == t[i..e][k - i];
  }

  lemma PrintedMarker(t: string, i: nat, j: nat, cids: List<string>)
    requires i <= j <= |t| && cids.Cons? && AllValid(cids) && t[i..j] == Print(cids)
    ensures i + 2 <= j && MatchAt(t, i) == Some(j) && Fields(t, i + 1, j - 1) == cids
  {
    CutBrackets(t, i, j, Commas(cids));
    CommasReadBack(t, i + 1, j - 1, cids);
    AllCidsMeaning(t, i + 1, j - 1);
    MarkerIsMatch(t, i, j);
  }

  lemma CutBrackets(t: string, i: nat, j: nat, inner: string)
    requires i <= j <= |t| && t[i..j] == "[" + inner + "]"
    ensures i + 2 <= j && t[i] == '[' && t[j - 1] == ']' && t[i + 1..j - 1] == inner
  {
    assert forall k :: i <= k < j ==> t[k] == t[i..j][k - i];
  }

  lemma CutThree(t: string, i: nat, x: string, y: string, z: string)
    requires i <= |t| && t[i..] == x + (y + z)
    ensures var a := i + |x|;
      var b := a + |y|;
      b <= |t| && t[i..a] == x && t[a..b] == y && t[b..] == z
  {
    assert forall k :: i <= k < |t| ==> t[k] == t[i..][k - i];
  }

  lemma ProseIsSkipped(t: string, at: nat -> List<string>, i: nat, a: nat)
    requires at == CidsOf(t) && i <= a <= |t| && '[' !in t[i..a]
    ensures Gather(at, i, |t|) == Gather(at, a, |t|)
  {
    forall k | i <= k < a
      ensures at(k) == Nil
    {
      assert t[k] == t[i..a][k - i];
      NotOpen(t, k);
    }
    GatherSkips(at, i, a, |t|);
  }

  lemma PrintedStep(t: string, at: nat -> List<string>, i: nat, a: nat, b: nat, cids: List<string>)
    requires at == CidsOf(t) && i <= a <= b <= |t| && '[' !in t[i..a]
    requires cids.Cons? && AllValid(cids) && t[a..b] == Print(cids)
    ensures Gather(at, i, |t|) == Append(cids, Gather(at, b, |t|))
  {
    ProseIsSkipped(t, at, i, a);
    PrintedMarker(t, a, b, cids);
    SearchStep(t, at, a, b, cids);
  }

  lemma {:induction false} PrintedFrom(t: string, at: nat -> List<string>, i: nat, ps: List<Passage>, tail: string)
    requires AllPrintable(ps)
    requires at == CidsOf(t) && i <= |t| && '[' !in tail && t[i..] == PrintAll(ps, tail)
    ensures Gather(at, i, |t|) == AllPrinted(ps)
    decreases ps
  {
    if ps.Nil? {
      assert t[i..|t|] == t[i..];
      ProseIsSkipped(t, at, i, |t|);
    } else {
      var p := ps.head;
      var a := i + |p.prose|;
      var b := a + |Print(p.cids)|;
      CutThree(t, i, p.prose, Print(p.cids), PrintAll(ps.tail, tail));
      PrintedStep(t, at, i, a, b, p.cids);
      PrintedFrom(t, at, b, ps.tail, tail);
    }
  }

  /** Round trip: bracket-free prose with markers printed into it is cited exactly as
      printed, known cids only, each where it first occurs. */
  lemma PrintedIsCited(ps: List<Passage>, tail: string, known: set<string>)
    requires AllPrintable(ps) && '[' !in tail
    ensures FirstKnown(AllCidsOf(PrintAll(ps, tail)), known) == FirstKnown(AllPrinted(ps), known)
  {
    var t := PrintAll(ps, tail);
    assert t[0..] == t;
    PrintedFrom(t, CidsOf(t), 0, ps, tail);
  }
}
