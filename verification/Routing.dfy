/** Which tier an alert is delivered at (src/krepis/alert_tiers.py) and which destination its
    Telegram message goes to (src/krepis/alerts.py). */
module Routing {
  import opened Prelude

  // ── the registry ──

  datatype Tier = Page | NotifySilent | TrackedOnly

  function Strictness(t: Tier): nat {
    match t case TrackedOnly => 0 case NotifySilent => 1 case Page => 2
  }

  type Attributes = map<string, string>

  datatype Override = Override(when: Attributes, tier: Option<string>)

  datatype Row = Row(source: string, class_: Option<string>, tier: Option<string>,
                     overrides: seq<Override>, pageAfter: Option<int>)

  datatype Decision = Decision(tier: Tier, drift: bool, class_: Option<string>, pageAfter: int)

  function LowerChar(c: char): char {
    if 'A' <= c <= 'Z' then (c as int + 32) as char else c
  }

  /** str.lower on the letters that matter here: no other character lowers to one of them. */
  function Lower(s: string): string { seq(|s|, i requires 0 <= i < |s| => LowerChar(s[i])) }

  /** The ladder for rows declared dynamic; an unrecognised severity pages. */
  function Ladder(severity: string): Tier {
    if Lower(severity) in {"error", "warning", "warn", "info"} then TrackedOnly else Page
  }

  function Resolve(tier: Option<string>, severity: string): Tier {
    if tier == Some("dynamic") then Ladder(severity)
    else if tier == Some("notify-silent") then NotifySilent
    else if tier == Some("tracked-only") then TrackedOnly
    else Page
  }

  /** s is the word w, in whatever case; w is in lower-case letters. */
  predicate IsWord(s: string, w: string) {
    |s| == |w| && forall i :: 0 <= i < |s| ==> s[i] == w[i] || s[i] as int + 32 == w[i] as int
  }

  predicate LowerLetters(w: string) { forall i :: 0 <= i < |w| ==> 'a' <= w[i] <= 'z' }

  lemma WordLowers(s: string, w: string)
    requires LowerLetters(w)
    ensures Lower(s) == w <==> IsWord(s, w)
  {
    if Lower(s) == w {
      forall i | 0 <= i < |s|
        ensures s[i] == w[i] || s[i] as int + 32 == w[i] as int
      {
        assert Lower(s)[i] == w[i];
      }
    }
    if IsWord(s, w) {
      forall i | 0 <= i < |s|
        ensures Lower(s)[i] == w[i]
      {
        assert 'a' <= w[i] <= 'z';
      }
    }
  }

  /** The severities a dynamic row keeps quiet about. */
  predicate Routine(severity: string) {
    IsWord(severity, "error") || IsWord(severity, "warning") || IsWord(severity, "warn") || IsWord(severity, "info")
  }

  /** Which declared tier gives which delivery: only the three quiet ones keep from paging,
      dynamic only for routine severities; a tier that is missing or unknown pages. */
  predicate DeliversAs(declared: Option<string>, severity: string, tier: Tier) {
    && (tier == NotifySilent <==> declared == Some("notify-silent"))
    && (tier == TrackedOnly <==>
          declared == Some("tracked-only") || (declared == Some("dynamic") && Routine(severity)))
  }

  lemma ResolveDelivers(declared: Option<string>, severity: string)
    ensures DeliversAs(declared, severity, Resolve(declared, severity))
  {
    WordLowers(severity, "error");
    WordLowers(severity, "warning");
    WordLowers(severity, "warn");
    WordLowers(severity, "info");
    assert "dynamic"[0] != "notify-silent"[0] && "dynamic"[0] != "tracked-only"[0];
    assert "notify-silent"[0] != "tracked-only"[0];
  }

  predicate Applies(o: Override, attributes: Attributes) {
    o.when != map[] && forall k :: k in o.when ==> k in attributes && attributes[k] == o.when[k]
  }

  /** The first override that applies, else the row's own tier. */
  function DeclaredTier(own: Option<string>, overrides: seq<Override>, attributes: Attributes): Option<string> {
    if overrides == [] then own
    else if Applies(overrides[0], attributes) then overrides[0].tier
    else DeclaredTier(own, overrides[1..], attributes)
  }

  /** All that an override asks for is among the attributes, and it asks for something. */
  predicate Matches(when: Attributes, attributes: Attributes) {
    when != map[] && when.Items <= attributes.Items
  }

  /** The row declares this tier for an emission with these attributes: that of its first
      override that matches, or its own when none does. */
  ghost predicate Declares(row: Row, attributes: Attributes, tier: Option<string>) {
    || ((forall e :: 0 <= e < |row.overrides| ==> !Matches(row.overrides[e].when, attributes)) && tier == row.tier)
    || exists o: nat :: o < |row.overrides| && IsFirstMatch(row, attributes, o) && tier == row.overrides[o].tier
  }

  predicate IsFirstMatch(row: Row, attributes: Attributes, o: nat)
    requires o < |row.overrides|
  {
    && Matches(row.overrides[o].when, attributes)
    && forall e :: 0 <= e < o ==> !Matches(row.overrides[e].when, attributes)
  }

  lemma AppliesIsMatches(o: Override, attributes: Attributes)
    ensures Applies(o, attributes) <==> Matches(o.when, attributes)
  {
    if Applies(o, attributes) {
      forall item | item in o.when.Items
        ensures item in attributes.Items
      {
        assert item.0 in o.when && attributes[item.0] == item.1;
      }
    }
    if Matches(o.when, attributes) {
      forall k | k in o.when
        ensures k in attributes && attributes[k] == o.when[k]
      {
        assert (k, o.when[k]) in o.when.Items;
      }
    }
  }

  lemma {:induction false} RowDeclares(row: Row, attributes: Attributes, from: nat)
    requires from <= |row.overrides|
    requires forall e :: 0 <= e < from ==> !Matches(row.overrides[e].when, attributes)
    ensures Declares(row, attributes, DeclaredTier(row.tier, row.overrides[from..], attributes))
    decreases |row.overrides| - from
  {
    if from < |row.overrides| {
      AppliesIsMatches(row.overrides[from], attributes);
      if Applies(row.overrides[from], attributes) {
        assert IsFirstMatch(row, attributes, from);
      } else {
        RowDeclares(row, attributes, from + 1);
        assert row.overrides[from..][1..] == row.overrides[from + 1..];
      }
    }
  }

  function TierOf(row: Row, severity: string, attributes: Attributes): Tier {
    Resolve(DeclaredTier(row.tier, row.overrides, attributes), severity)
  }

  // ── which rows claim a source ──

  /** A row whose source ends in "*" claims every source with that prefix. */
  predicate Claims(row: Row, source: string) {
    row.source != "" && row.source[|row.source| - 1] == '*'
    && row.source[..|row.source| - 1] <= source
  }

  /** The row's source is a prefix of the given one, with a star after it. */
  ghost predicate Covers(row: Row, source: string) {
    exists prefix: string :: row.source == prefix + "*" && prefix <= source
  }

  lemma ClaimsIsCovers(row: Row, source: string)
    ensures Claims(row, source) <==> Covers(row, source)
  {
    if Claims(row, source) {
      assert row.source == row.source[..|row.source| - 1] + "*";
    }
    if prefix: string :| row.source == prefix + "*" && prefix <= source {
      assert row.source[..|row.source| - 1] == prefix;
    }
  }

  function Filter(rows: seq<Row>, keep: Row -> bool): seq<Row> {
    if rows == [] then []
    else Filter(rows[..|rows| - 1], keep) + if keep(rows[|rows| - 1]) then [rows[|rows| - 1]] else []
  }

  lemma {:induction false} FilterKeeps(rows: seq<Row>, keep: Row -> bool)
    ensures forall r :: r in Filter(rows, keep) <==> r in rows && keep(r)
  {
    if rows != [] {
      FilterKeeps(rows[..|rows| - 1], keep);
      assert rows == rows[..|rows| - 1] + [rows[|rows| - 1]];
    }
  }

  function Longest(rows: seq<Row>): (r: nat)
    requires rows != []
    ensures forall k :: 0 <= k < |rows| ==> |rows[k].source| <= r
    ensures exists k :: 0 <= k < |rows| && |rows[k].source| == r
  {
    var init, last := rows[..|rows| - 1], rows[|rows| - 1];
    if init == [] then |last.source|
    else
      var r := Longest(init);
      assert forall k :: 0 <= k < |init| ==> rows[k] == init[k];
      if r >= |last.source| then r else |last.source|
  }

  /** _match */
  function Match(source: string, entries: seq<Row>): seq<Row> {
    var exact := Filter(entries, (r: Row) => r.source == source);
    if exact != [] then exact
    else
      var wild := Filter(entries, (r: Row) => Claims(r, source));
      if wild == [] then []
      else
        var longest := Longest(wild);
        Filter(wild, (r: Row) => |r.source| == longest)
  }

  /** A row wins if it names the source exactly or, when none does, if no longer prefix claims it. */
  predicate Wins(row: Row, source: string, entries: seq<Row>) {
    row in entries &&
    (row.source == source
     || ((forall r :: r in entries ==> r.source != source) && Claims(row, source)
         && forall r :: r in entries && Claims(r, source) ==> |r.source| <= |row.source|))
  }

  lemma MatchIsWinners(source: string, entries: seq<Row>)
    ensures forall r :: r in Match(source, entries) <==> Wins(r, source, entries)
    ensures Match(source, entries) == [] <==>
      forall r :: r in entries ==> r.source != source && !Claims(r, source)
  {
    var same, claims := (r: Row) => r.source == source, (r: Row) => Claims(r, source);
    var exact, wild := Filter(entries, same), Filter(entries, claims);
    FilterKeeps(entries, same);
    FilterKeeps(entries, claims);
    if exact != [] {
      assert exact[0] in exact;
      assert exact[0] in Match(source, entries);
    } else if wild != [] {
      var longest := Longest(wild);
      var k :| 0 <= k < |wild| && |wild[k].source| == longest;
      FilterKeeps(wild, (r: Row) => |r.source| == longest);
      assert wild[k] in wild;
      assert wild[k] in Match(source, entries);
    }
  }

  /** All winning rows name one and the same source, so a broad claim never mixes with a
      specific one. */
  lemma WinnersAgree(source: string, entries: seq<Row>, a: Row, b: Row)
    requires Wins(a, source, entries) && Wins(b, source, entries)
    ensures a.source == b.source
  {
    if a.source != source {
      var n := |a.source| - 1;
      assert |b.source| == n + 1;
      assert a.source[..n] == source[..n] == b.source[..n];
      assert a.source == a.source[..n] + ['*'] && b.source == b.source[..n] + ['*'];
    }
  }

  // ── the tier of an emission ──

  ghost predicate Unclaimed(source: string, entries: seq<Row>) {
    forall r :: r in entries ==> r.source != source && !Covers(r, source)
  }

  lemma NothingMatches(source: string, entries: seq<Row>)
    ensures Match(source, entries) == [] <==> Unclaimed(source, entries)
  {
    MatchIsWinners(source, entries);
    forall r ensures Claims(r, source) <==> Covers(r, source) { ClaimsIsCovers(r, source); }
  }

  /** Row k decides: no winning row is stricter and no earlier one is as strict. */
  predicate Decides(rows: seq<Row>, k: nat, severity: string, attributes: Attributes) {
    && k < |rows|
    && (forall j :: 0 <= j < |rows| ==>
          Strictness(TierOf(rows[j], severity, attributes)) <= Strictness(TierOf(rows[k], severity, attributes)))
    && (forall j :: 0 <= j < k ==>
          Strictness(TierOf(rows[j], severity, attributes)) < Strictness(TierOf(rows[k], severity, attributes)))
  }

  function PageAfter(row: Row): int {
    if row.pageAfter.None? || row.pageAfter.value == 0 then 1 else row.pageAfter.value
  }

  /** The tier is what the tier that the row declares means. */
  ghost predicate Delivers(row: Row, severity: string, attributes: Attributes, tier: Tier) {
    exists declared :: Declares(row, attributes, declared) && DeliversAs(declared, severity, tier)
  }

  lemma RowDelivers(row: Row, severity: string, attributes: Attributes)
    ensures Delivers(row, severity, attributes, TierOf(row, severity, attributes))
  {
    assert row.overrides[0..] == row.overrides;
    RowDeclares(row, attributes, 0);
    ResolveDelivers(DeclaredTier(row.tier, row.overrides, attributes), severity);
  }

  /** The decision is row k's: its class, its threshold (one unless it says otherwise), and the
      tier it declares. */
  ghost predicate DecidedBy(d: Decision, rows: seq<Row>, k: nat, severity: string, attributes: Attributes) {
    && Decides(rows, k, severity, attributes)
    && d.tier == TierOf(rows[k], severity, attributes) && Delivers(rows[k], severity, attributes, d.tier)
    && d.class_ == rows[k].class_
    && (rows[k].pageAfter.Some? && rows[k].pageAfter.value != 0 ==> d.pageAfter == rows[k].pageAfter.value)
    && (rows[k].pageAfter.None? || rows[k].pageAfter.value == 0 ==> d.pageAfter == 1)
  }

  const QUIET := {Some("dynamic"), Some("notify-silent"), Some("tracked-only")}

  /** resolve_tier: every unknown pages, otherwise the strictest winning row decides; a source
      goes quiet only if every winning row declares it so. */
  method ResolveTier(source: string, registry: Option<seq<Row>>, severity: string, attributes: Attributes)
    returns (d: Decision)
    ensures d.drift <==> (source == "" || registry.None? || Unclaimed(source, registry.value))
    ensures d.drift ==> d.tier == Page && d.pageAfter == 1
    ensures !d.drift ==> exists k: nat :: DecidedBy(d, Match(source, registry.value), k, severity, attributes)
    ensures d.tier != Page ==>
      forall r :: Wins(r, source, registry.value) ==> DeclaredTier(r.tier, r.overrides, attributes) in QUIET
  {
    if source == "" || registry.None? { return Decision(Page, true, None, 1); }
    var rows := Match(source, registry.value);
    NothingMatches(source, registry.value);
    if rows == [] { return Decision(Page, true, None, 1); }
    var resolved: seq<Tier> := [];
    var i := 0;
    while i < |rows|
      invariant 0 <= i <= |rows| && |resolved| == i
      invariant forall j :: 0 <= j < i ==> resolved[j] == TierOf(rows[j], severity, attributes)
    {
      var tier := Overridden(rows[i], attributes);
      resolved := resolved + [Resolve(tier, severity)];
      i := i + 1;
    }
    var k := FirstStrictest(resolved);
    assert Decides(rows, k, severity, attributes);
    QuietIsDeclared(source, registry.value, k, severity, attributes);
    RowDelivers(rows[k], severity, attributes);
    d := Decision(resolved[k], false, rows[k].class_, PageAfter(rows[k]));
    assert DecidedBy(d, rows, k, severity, attributes);
  }

  lemma QuietIsDeclared(source: string, entries: seq<Row>, k: nat, severity: string, attributes: Attributes)
    requires Decides(Match(source, entries), k, severity, attributes)
    ensures TierOf(Match(source, entries)[k], severity, attributes) != Page ==>
      forall r :: Wins(r, source, entries) ==> DeclaredTier(r.tier, r.overrides, attributes) in QUIET
  {
    var rows := Match(source, entries);
    MatchIsWinners(source, entries);
    if TierOf(rows[k], severity, attributes) != Page {
      forall r | Wins(r, source, entries)
        ensures DeclaredTier(r.tier, r.overrides, attributes) in QUIET
      {
        assert r in rows;
        var j :| 0 <= j < |rows| && rows[j] == r;
        assert TierOf(rows[j], severity, attributes) != Page;
      }
    }
  }

  /** The loop over a row's episode overrides. */
  method Overridden(row: Row, attributes: Attributes) returns (tier: Option<string>)
    ensures tier == DeclaredTier(row.tier, row.overrides, attributes)
  {
    var o := 0;
    while o < |row.overrides|
      invariant 0 <= o <= |row.overrides|
      invariant DeclaredTier(row.tier, row.overrides, attributes)
        == DeclaredTier(row.tier, row.overrides[o..], attributes)
    {
      if Applies(row.overrides[o], attributes) { return row.overrides[o].tier; }
      o := o + 1;
    }
    tier := row.tier;
  }

  /** max by strictness: the first of the strictest. */
  method FirstStrictest(tiers: seq<Tier>) returns (k: nat)
    requires tiers != []
    ensures k < |tiers|
    ensures forall j :: 0 <= j < |tiers| ==> Strictness(tiers[j]) <= Strictness(tiers[k])
    ensures forall j :: 0 <= j < k ==> Strictness(tiers[j]) < Strictness(tiers[k])
  {
    k := 0;
    var i := 1;
    while i < |tiers|
      invariant 0 <= k < i <= |tiers|
      invariant forall j :: 0 <= j < i ==> Strictness(tiers[j]) <= Strictness(tiers[k])
      invariant forall j :: 0 <= j < k ==> Strictness(tiers[j]) < Strictness(tiers[k])
    {
      if Strictness(tiers[i]) > Strictness(tiers[k]) { k := i; }
      i := i + 1;
    }
  }

  // ── the destination of the Telegram message ──

  datatype Destination = OperatorChat | LogChat | ConsoleOnly

  predicate Given(x: Option<string>) { x.Some? && x.value != "" }

  predicate PhonePush(severity: string) { Lower(severity) in {"error", "critical"} }

  /** The severities that reach the operator. */
  predicate Incident(severity: string) { IsWord(severity, "error") || IsWord(severity, "critical") }

  lemma IncidentsArePushed(severity: string)
    ensures PhonePush(severity) <==> Incident(severity)
  {
    WordLowers(severity, "error");
    WordLowers(severity, "critical");
  }

  /** resolve_destination for a destination that is one of the three, or none. */
  function ResolveDestination(severity: string, destination: Option<Destination>, artifact: Option<string>,
                              logChat: Option<string>): (r: Destination)
    ensures r == ConsoleOnly ==> Given(artifact)
    ensures r == LogChat ==> Given(logChat)
  {
    match destination
    case Some(OperatorChat) => OperatorChat
    case Some(LogChat) => if Given(logChat) then LogChat else OperatorChat
    case Some(ConsoleOnly) => if Given(artifact) then ConsoleOnly else OperatorChat
    case None =>
      if PhonePush(severity) then OperatorChat
      else if Given(logChat) then LogChat
      else if Given(artifact) then ConsoleOnly
      else OperatorChat
  }

  /** A notify-silent emission asks for the log chat unless the caller asked for something. */
  function Effective(tier: Tier, destination: Option<Destination>): Option<Destination> {
    if destination.None? && tier == NotifySilent then Some(LogChat) else destination
  }

  datatype Telegram = NotSent(recorded: bool) | Sent(to: Destination, chat: Option<string>)

  /** What publish would do if it always looked the log chat up. */
  function Eager(tier: Tier, severity: string, destination: Option<Destination>, artifact: Option<string>,
                 logChat: Option<string>): Telegram
  {
    if tier == TrackedOnly then NotSent(true)
    else
      var d := ResolveDestination(severity, Effective(tier, destination), artifact, logChat);
      if d == ConsoleOnly then NotSent(true)
      else Sent(d, if d == LogChat then logChat else None)
  }

  /** Where a message goes, in every case. It stays out of Telegram when it is tracked only, and
      for the console when that has an artifact and was asked for, or nothing was asked for,
      the tier is not notify-silent, the severity no incident and no log chat is configured.
      Otherwise it goes to the log chat, if one is configured, when that was asked for, or
      nothing was and the tier is notify-silent or the severity no incident; else to the
      operator. */
  predicate GoesTo(r: Telegram, tier: Tier, severity: string, destination: Option<Destination>, artifact: bool,
                   logChat: bool)
  {
    var quiet := destination.None? && (tier == NotifySilent || !Incident(severity));
    var toLog := logChat && (destination == Some(LogChat) || quiet);
    var toConsole := artifact
      && (destination == Some(ConsoleOnly) || (destination.None? && tier != NotifySilent && quiet && !logChat));
    if tier == TrackedOnly || toConsole then r == NotSent(true)
    else if toLog then r.Sent? && r.to == LogChat
    else r == Sent(OperatorChat, None)
  }

  /** The secrets store; only the number of lookups matters besides its answer. */
  class Secrets {
    const logChat: Option<string>
    var lookups: nat

    method ResolveLogChat() returns (r: Option<string>)
      modifies this
      ensures r == (if Given(logChat) then logChat else None) && lookups == old(lookups) + 1
    {
      lookups := lookups + 1;
      r := if Given(logChat) then logChat else None;
    }

    /** The Telegram leg of publish: the lookup is skipped when only the operator chat can
        be meant, and the outcome is that of always looking. Nothing is dropped: what is not
        sent is tracked-only or has a console artifact, what is sent goes to a configured
        chat; and an explicit destination stands where it can. */
    method Route(tier: Tier, severity: string, destination: Option<Destination>, artifact: Option<string>)
      returns (r: Telegram)
      modifies this
      ensures r == Eager(tier, severity, destination, artifact, logChat)
      ensures tier == Page && Incident(severity) && destination.None? ==>
        lookups == old(lookups) && r == Sent(OperatorChat, None)
      ensures lookups <= old(lookups) + 1
      ensures GoesTo(r, tier, severity, destination, Given(artifact), Given(logChat))
      ensures r.Sent? && r.to == LogChat ==> r.chat == logChat
      ensures r.NotSent? ==> tier == TrackedOnly || (Given(artifact) && destination != Some(OperatorChat))
      ensures r.Sent? ==> r.to == OperatorChat || (r.to == LogChat && Given(logChat) && r.chat == logChat)
      ensures Given(artifact) && Given(logChat) && destination.Some? && tier != TrackedOnly ==>
        if destination.value == ConsoleOnly then r.NotSent? else r.Sent? && r.to == destination.value
      ensures Given(logChat) && destination.None? && tier == Page ==>
        (r == Sent(OperatorChat, None) <==> Incident(severity))
    {
      IncidentsArePushed(severity);
      if tier == TrackedOnly { return NotSent(true); }
      var chat: Option<string> := None;
      if destination != Some(OperatorChat) {
        if destination.Some? || tier != Page || !PhonePush(severity) {
          chat := ResolveLogChat();
        }
      }
      var effective := destination;
      if effective.None? && tier == NotifySilent { effective := Some(LogChat); }
      var d := ResolveDestination(severity, effective, artifact, chat);
      if d == ConsoleOnly {
        r := NotSent(true);
      } else {
        r := Sent(d, if d == LogChat then chat else None);
      }
    }
  }
}
