/**
 The candidate marker: printed as the first line of every tracking issue
 (src/pipeline/templates/render.py) and scanned back by regular expression
 (src/pipeline/state.py). The two are inverse to each other, and the regular-expression scan finds
 exactly the markers a plain substring test finds.
 */
module Markers {
  import opened Wrappers
  import opened Schemas

  const MARKER_PREFIX := "<!-- devin-remediation-id: "
  const MARKER_SUFFIX := " -->"

  function CandidateMarker(id: string): string {
    MARKER_PREFIX + id + MARKER_SUFFIX
  }

  /** Python's `\s` on text. */
  predicate IsSpace(c: char) {
    var n := c as int;
    || 0x09 <= n <= 0x0D || 0x1C <= n <= 0x20 || n == 0x85 || n == 0xA0 || n == 0x1680
    || 0x2000 <= n <= 0x200A || n == 0x2028 || n == 0x2029 || n == 0x202F || n == 0x205F || n == 0x3000
  }

  /** The character class `[^\s<>]`. */
  predicate IsIdChar(c: char) {
    !IsSpace(c) && c != '<' && c != '>'
  }

  /** A candidate id the pattern can carry. */
  predicate ScannableId(id: string) {
    id != "" && forall k :: 0 <= k < |id| ==> IsIdChar(id[k])
  }

  // ---- the regular-expression scan -----------------------------------------------------------

  /** Length of the greedy run `[^\s<>]*` at the start of `s`. */
  function IdRun(s: string): (n: nat)
    ensures n <= |s|
    ensures forall k :: 0 <= k < n ==> IsIdChar(s[k])
    ensures n < |s| ==> !IsIdChar(s[n])
  {
    if s == "" || !IsIdChar(s[0]) then 0 else 1 + IdRun(s[1..])
  }

  /** The id captured when the pattern matches at the very start of `s`. */
  function MatchHere(s: string): (r: Option<string>)
    ensures r.Some? ==> ScannableId(r.value) && CandidateMarker(r.value) <= s
  {
    if !(MARKER_PREFIX <= s) then None
    else
      var rest := s[|MARKER_PREFIX|..];
      var n := IdRun(rest);
      if n > 0 && MARKER_SUFFIX <= rest[n..] then
        assert s == MARKER_PREFIX + rest[..n] + rest[n..];
        assert MARKER_SUFFIX == rest[n..][..|MARKER_SUFFIX|];
        assert s[..|CandidateMarker(rest[..n])|] == CandidateMarker(rest[..n]);
        Some(rest[..n])
      else None
  }

  /** Every id captured by scanning left to right without overlap, in order of occurrence. */
  function MarkerIds(s: string): seq<string>
    decreases |s|
  {
    if s == "" then []
    else
      match MatchHere(s)
      case Some(id) => [id] + MarkerIds(s[|CandidateMarker(id)|..])
      case None => MarkerIds(s[1..])
  }

  // ---- the substring test --------------------------------------------------------------------

  predicate OccursAt(s: string, part: string, at: nat) {
    at + |part| <= |s| && s[at..at + |part|] == part
  }

  /** Python's `part in s`. */
  predicate Contains(s: string, part: string) {
    exists at :: 0 <= at <= |s| && OccursAt(s, part, at)
  }

  /** The issue body that carries a candidate's marker. */
  predicate Carries(body: string, id: string) {
    Contains(body, CandidateMarker(id))
  }

  lemma MarkerCarriesItself(id: string)
    ensures Carries(CandidateMarker(id), id)
  {
    assert OccursAt(CandidateMarker(id), CandidateMarker(id), 0);
  }

  const MARKER_PHRASE := "devin-remediation-id"

  /** The body holds the phrase every marker holds. */
  predicate HoldsPhrase(body: string) {
    Contains(body, MARKER_PHRASE)
  }

  lemma PrefixHoldsPhrase()
    ensures 5 + |MARKER_PHRASE| <= |MARKER_PREFIX| && MARKER_PREFIX[5..5 + |MARKER_PHRASE|] == MARKER_PHRASE
  {
    assert MARKER_PREFIX == "<!-- " + MARKER_PHRASE + ": ";
    assert ("<!-- " + MARKER_PHRASE + ": ")[5..25] == MARKER_PHRASE;
  }

  /** Whatever carries a marker holds the phrase. */
  lemma CarriedMarkerHoldsPhrase(body: string, id: string)
    requires Carries(body, id)
    ensures HoldsPhrase(body)
  {
    var marker := CandidateMarker(id);
    var at :| 0 <= at <= |body| && OccursAt(body, marker, at);
    PrefixHoldsPhrase();
    hide MARKER_PHRASE, MARKER_PREFIX, MARKER_SUFFIX;
    var n := |MARKER_PHRASE|;
    assert marker[5..5 + n] == MARKER_PREFIX[5..5 + n];
    assert body[at..at + |marker|][5..5 + n] == body[at + 5..at + 5 + n];
    assert OccursAt(body, MARKER_PHRASE, at + 5);
  }

  // ---- scanning is the inverse of printing ---------------------------------------------------

  /** Inside a marker, only the first character is `<`, and none is a line break. */
  lemma MarkerShape(id: string)
    requires ScannableId(id)
    ensures CandidateMarker(id)[0] == '<' && |CandidateMarker(id)| > 1
    ensures CandidateMarker(id)[|CandidateMarker(id)| - 1] == '>'
    ensures forall k :: 0 < k < |CandidateMarker(id)| ==> CandidateMarker(id)[k] != '<'
    ensures forall k :: 0 <= k < |CandidateMarker(id)| ==> CandidateMarker(id)[k] != '\n'
  {
    var m := CandidateMarker(id);
    var p, q := |MARKER_PREFIX|, |MARKER_PREFIX| + |id|;
    forall k | 0 <= k < |m| ensures m[k] != '\n' && (k > 0 ==> m[k] != '<') {
      if k < p {
        assert m[k] == MARKER_PREFIX[k];
      } else if k < q {
        assert m[k] == id[k - p] && IsIdChar(id[k - p]);
      } else {
        assert m[k] == MARKER_SUFFIX[k - q];
      }
    }
  }

  /** The greedy run stops right after an id that is followed by something else. */
  lemma {:induction false} IdRunStops(id: string, rest: string)
    requires forall k :: 0 <= k < |id| ==> IsIdChar(id[k])
    requires rest != "" && !IsIdChar(rest[0])
    ensures IdRun(id + rest) == |id|
  {
    if id == "" {
      assert id + rest == rest;
    } else {
      assert (id + rest)[1..] == id[1..] + rest;
      IdRunStops(id[1..], rest);
    }
  }

  lemma MatchAtMarker(id: string, rest: string)
    requires ScannableId(id)
    ensures MatchHere(CandidateMarker(id) + rest) == Some(id)
  {
    var s := CandidateMarker(id) + rest;
    var after := MARKER_SUFFIX + rest;
    assert s[..|MARKER_PREFIX|] == MARKER_PREFIX;
    assert s[|MARKER_PREFIX|..] == id + after;
    assert after[0] == ' ';
    IdRunStops(id, after);
    assert (id + after)[|id|..] == after;
    assert after[..|MARKER_SUFFIX|] == MARKER_SUFFIX;
    assert (id + after)[..|id|] == id;
  }

  /** A printed marker scans back to its id, followed by whatever the rest holds. */
  lemma PrintThenScan(id: string, rest: string)
    requires ScannableId(id)
    ensures MarkerIds(CandidateMarker(id) + rest) == [id] + MarkerIds(rest)
  {
    MatchAtMarker(id, rest);
    assert (CandidateMarker(id) + rest)[|CandidateMarker(id)|..] == rest;
  }

  lemma ShiftOccurrence(s: string, skip: nat, part: string, at: nat)
    requires skip <= |s|
    ensures OccursAt(s[skip..], part, at) <==> OccursAt(s, part, skip + at)
  {
    if skip + at + |part| <= |s| {
      assert s[skip..][at..at + |part|] == s[skip + at..skip + at + |part|];
    }
  }

  /** Two markers never overlap, because a marker holds no second `<`. */
  lemma MarkersDoNotOverlap(s: string, id: string, other: string, at: nat)
    requires ScannableId(id) && ScannableId(other) && CandidateMarker(id) <= s
    requires OccursAt(s, CandidateMarker(other), at) && at > 0
    ensures at >= |CandidateMarker(id)|
  {
    MarkerShape(id);
    MarkerShape(other);
    var m, o := CandidateMarker(id), CandidateMarker(other);
    assert s[at..at + |o|][0] == o[0];
    assert forall k :: 0 <= k < |m| ==> s[k] == m[k];
  }

  /** How far the scan advances from the start of `s`. */
  function ScanStep(s: string): (n: nat)
    requires s != ""
    ensures 0 < n <= |s|
  {
    var m := MatchHere(s);
    if m.Some? then |CandidateMarker(m.value)| else 1
  }

  lemma ScanUnfolds(s: string)
    requires s != ""
    ensures MarkerIds(s)
         == (if MatchHere(s).Some? then [MatchHere(s).value] else []) + MarkerIds(s[ScanStep(s)..])
  {}

  /** Soundness: a scanned id occurs, and is well formed. */
  lemma {:induction false} ScannedMarkersOccur(s: string, id: string) returns (at: nat)
    requires id in MarkerIds(s)
    ensures ScannableId(id) && OccursAt(s, CandidateMarker(id), at)
    decreases |s|
  {
    ScanUnfolds(s);
    if MatchHere(s) == Some(id) {
      at := 0;
    } else {
      var n := ScanStep(s);
      at := ScannedMarkersOccur(s[n..], id);
      ShiftOccurrence(s, n, CandidateMarker(id), at);
      at := n + at;
    }
  }

  /** Completeness: an occurring marker is never missed. */
  lemma {:induction false} OccurringMarkersAreScanned(s: string, id: string, at: nat)
    requires ScannableId(id) && OccursAt(s, CandidateMarker(id), at)
    ensures id in MarkerIds(s)
    decreases |s|
  {
    ScanUnfolds(s);
    if at == 0 {
      MarkerAtStart(s, id);
    } else {
      var n := ScanStep(s);
      if MatchHere(s).Some? {
        MarkersDoNotOverlap(s, MatchHere(s).value, id, at);
      }
      ShiftOccurrence(s, n, CandidateMarker(id), at - n);
      OccurringMarkersAreScanned(s[n..], id, at - n);
    }
  }

  lemma MarkerAtStart(s: string, id: string)
    requires ScannableId(id) && CandidateMarker(id) <= s
    ensures MatchHere(s) == Some(id)
  {
    var m := CandidateMarker(id);
    MatchAtMarker(id, s[|m|..]);
    assert s == m + s[|m|..];
  }

  /** The regular-expression scan and the substring test agree on every scannable id. */
  lemma ScanAgreesWithSubstring(s: string, id: string)
    ensures id in MarkerIds(s) <==> ScannableId(id) && Carries(s, id)
  {
    if id in MarkerIds(s) {
      var at := ScannedMarkersOccur(s, id);
    }
    if ScannableId(id) && Carries(s, id) {
      var at :| 0 <= at <= |s| && OccursAt(s, CandidateMarker(id), at);
      OccurringMarkersAreScanned(s, id, at);
    }
  }

  // ---- rendering a tracking issue ------------------------------------------------------------

  function Join(lines: seq<string>): string {
    if lines == [] then ""
    else if |lines| == 1 then lines[0]
    else lines[0] + "\n" + Join(lines[1..])
  }

  /** Python's `str.rstrip()`. */
  function RStrip(s: string): string {
    if s != "" && IsSpace(s[|s| - 1]) then RStrip(s[..|s| - 1]) else s
  }

  /** Heading, value and blank line of each section, in order. */
  function SectionLines(sections: seq<(string, string)>): seq<string> {
    if sections == [] then []
    else [sections[0].0, sections[0].1, ""] + SectionLines(sections[1..])
  }

  const NOTICE_HEADING := "### SIMULATED ARTIFACT"
  const NOTICE_TEXT := "Writes are suppressed; no remote artifact exists."

  /** The lines between the marker and the text: the SIMULATED notice, or in a LIVE run nothing but the
      blank line LANE 3 starts with. */
  function Banner(c: Candidate): seq<string> {
    if c.artifactSimulated then [NOTICE_HEADING, NOTICE_TEXT, ""]
    else if c.lane.Deprecations? then [""]
    else []
  }

  /** The body of a tracking issue: headed sections for LANE 1 and LANE 2, the SIP template for LANE 3. */
  function RenderIssueBody(c: Candidate, sections: seq<(string, string)>, template: string): string {
    var marker := CandidateMarker(c.candidateId);
    if c.lane.Deprecations? then
      Join([marker] + (Banner(c) + [RStrip(template), ""]))
    else
      RStrip(Join([marker] + (Banner(c) + SectionLines(sections)))) + "\n"
  }

  predicate NoMarker(s: string) {
    MarkerIds(s) == []
  }

  /** No marker crosses a line break, so text split into lines can be scanned line by line. */
  lemma {:induction false} ScanSplitsAtNewline(a: string, b: string)
    ensures MarkerIds(a + "\n" + b) == MarkerIds(a) + MarkerIds(b)
    decreases |a|
  {
    hide MatchHere;
    hide MarkerIds;
    if a == "" {
      NewlineScansToNothing(b);
      assert a + "\n" + b == "\n" + b;
    } else {
      var n, ids := ScanStepOfFirstLine(a, b);
      ScanSplitsAtNewline(a[n..], b);
    }
  }

  lemma NewlineScansToNothing(b: string)
    ensures MarkerIds("\n" + b) == MarkerIds("") + MarkerIds(b)
  {
    var s := "\n" + b;
    assert s[0] == '\n' && MARKER_PREFIX[0] == '<';
    assert MatchHere(s).None?;
    assert s[1..] == b;
  }

  /** One step of the scan consumes the same text, with or without the next line. */
  lemma ScanStepOfFirstLine(a: string, b: string) returns (n: nat, ids: seq<string>)
    requires a != ""
    ensures 0 < n <= |a|
    ensures MarkerIds(a) == ids + MarkerIds(a[n..])
    ensures MarkerIds(a + "\n" + b) == ids + MarkerIds(a[n..] + "\n" + b)
  {
    hide MatchHere;
    hide MarkerIds;
    var s := a + "\n" + b;
    ScanUnfolds(s);
    ScanUnfolds(a);
    MatchIgnoresNextLine(a, b);
    n := ScanStep(a);
    ids := if MatchHere(a).Some? then [MatchHere(a).value] else [];
    assert s[n..] == a[n..] + "\n" + b;
  }

  /** The pattern matches at the start of a line exactly when it matches the line alone. */
  lemma MatchIgnoresNextLine(a: string, b: string)
    requires a != ""
    ensures MatchHere(a + "\n" + b) == MatchHere(a)
  {
    var s := a + "\n" + b;
    if MatchHere(s).Some? {
      MarkerStaysOnItsLine(a, b, MatchHere(s).value);
      MarkerAtStart(a, MatchHere(s).value);
    } else if MatchHere(a).Some? {
      var id := MatchHere(a).value;
      var m := CandidateMarker(id);
      assert s[..|m|] == a[..|m|];
      MarkerAtStart(s, id);
    }
  }

  lemma MarkerStaysOnItsLine(a: string, b: string, id: string)
    requires ScannableId(id) && CandidateMarker(id) <= a + "\n" + b
    ensures CandidateMarker(id) <= a
  {
    var m := CandidateMarker(id);
    var s := a + "\n" + b;
    MarkerShape(id);
    assert s[|a|] == '\n';
    assert forall k :: 0 <= k < |m| ==> s[k] == m[k];
    assert s[..|m|] == a[..|m|];
  }

  lemma {:induction false} JoinHoldsNoMarker(lines: seq<string>)
    requires forall l :: l in lines ==> NoMarker(l)
    ensures NoMarker(Join(lines))
  {
    if |lines| == 1 {
      assert lines[0] in lines;
    }
    if |lines| > 1 {
      assert lines[0] in lines;
      JoinHoldsNoMarker(lines[1..]);
      ScanSplitsAtNewline(lines[0], Join(lines[1..]));
    }
  }

  lemma PrefixHoldsNoMarker(s: string, n: nat)
    requires NoMarker(s) && n <= |s|
    ensures NoMarker(s[..n])
  {
    hide MarkerIds;
    if MarkerIds(s[..n]) != [] {
      var id := MarkerIds(s[..n])[0];
      var at := ScannedMarkersOccur(s[..n], id);
      assert s[at..at + |CandidateMarker(id)|] == s[..n][at..at + |CandidateMarker(id)|];
      OccurringMarkersAreScanned(s, id, at);
    }
  }

  lemma {:induction false} RStripIsPrefix(s: string) returns (n: nat)
    ensures n <= |s| && RStrip(s) == s[..n]
    ensures forall k :: n <= k < |s| ==> IsSpace(s[k])
    ensures n > 0 ==> !IsSpace(s[n - 1])
  {
    if s != "" && IsSpace(s[|s| - 1]) {
      n := RStripIsPrefix(s[..|s| - 1]);
      assert s[..|s| - 1][..n] == s[..n];
    } else {
      n := |s|;
    }
  }

  lemma ScannedTextHoldsBracket(l: string)
    requires MarkerIds(l) != []
    ensures '<' in l
  {
    var id := MarkerIds(l)[0];
    var at := ScannedMarkersOccur(l, id);
    MarkerShape(id);
    assert l[at..at + |CandidateMarker(id)|][0] == l[at];
  }

  lemma PlainTextHoldsNoMarker(l: string)
    requires '<' !in l
    ensures NoMarker(l)
  {
    if !NoMarker(l) {
      ScannedTextHoldsBracket(l);
    }
  }

  lemma {:induction false} SectionLinesHoldNoMarker(sections: seq<(string, string)>)
    requires forall p :: p in sections ==> NoMarker(p.0) && NoMarker(p.1)
    ensures forall l :: l in SectionLines(sections) ==> NoMarker(l)
  {
    if sections != [] {
      SectionLinesHoldNoMarker(sections[1..]);
    }
  }

  lemma JoinUnfolds(first: string, rest: seq<string>)
    requires rest != []
    ensures Join([first] + rest) == first + "\n" + Join(rest)
  {
    assert ([first] + rest)[1..] == rest;
  }

  /** Print/scan round trip: in all three lanes, a rendered issue body whose other text holds no
      marker scans back to exactly the id it was rendered for. */
  lemma RenderThenScan(c: Candidate, sections: seq<(string, string)>, template: string)
    requires ScannableId(c.candidateId) && NoMarker(template)
    requires forall p :: p in sections ==> NoMarker(p.0) && NoMarker(p.1)
    requires !c.lane.Deprecations? ==> sections != []
    ensures MarkerIds(RenderIssueBody(c, sections, template)) == [c.candidateId]
  {
    hide MarkerIds, Banner;
    var marker, banner := CandidateMarker(c.candidateId), Banner(c);
    PlainTextHoldsNoMarker("");
    BannerHoldsNoMarker(c);
    if c.lane.Deprecations? {
      var n := RStripIsPrefix(template);
      PrefixHoldsNoMarker(template, n);
      var rest := banner + [RStrip(template), ""];
      JoinHoldsNoMarker(rest);
      JoinUnfolds(marker, rest);
      ScanMarkerLine(c.candidateId, Join(rest));
    } else {
      var rest := banner + SectionLines(sections);
      SectionLinesHoldNoMarker(sections);
      JoinHoldsNoMarker(rest);
      JoinUnfolds(marker, rest);
      StrippedBodyScans(c.candidateId, Join(rest));
    }
  }

  lemma BannerHoldsNoMarker(c: Candidate)
    ensures forall l :: l in Banner(c) ==> NoMarker(l)
  {
    NoticeIsPlain();
    hide MarkerIds, NOTICE_HEADING, NOTICE_TEXT;
    PlainTextHoldsNoMarker(NOTICE_HEADING);
    PlainTextHoldsNoMarker(NOTICE_TEXT);
    PlainTextHoldsNoMarker("");
  }

  lemma NoticeIsPlain()
    ensures '<' !in NOTICE_HEADING && '<' !in NOTICE_TEXT
  {
    NoticeTextIsPlain();
    hide NOTICE_TEXT;
  }

  lemma NoticeTextIsPlain()
    ensures '<' !in NOTICE_TEXT
  {
    assert NOTICE_TEXT == "Writes are suppressed; " + "no remote artifact exists.";
    assert '<' !in "Writes are suppressed; ";
    assert '<' !in "no remote artifact exists.";
  }

  /** Validation looks for the marker as a substring; every rendered body passes it. */
  lemma RenderedBodyCarriesMarker(c: Candidate, sections: seq<(string, string)>, template: string)
    requires !c.lane.Deprecations? ==> sections != []
    ensures Carries(RenderIssueBody(c, sections, template), c.candidateId)
  {
    hide Banner;
    var marker, banner := CandidateMarker(c.candidateId), Banner(c);
    var body := RenderIssueBody(c, sections, template);
    if c.lane.Deprecations? {
      JoinUnfolds(marker, banner + [RStrip(template), ""]);
    } else {
      var rest := banner + SectionLines(sections);
      JoinUnfolds(marker, rest);
      assert marker[|marker| - 1] == MARKER_SUFFIX[|MARKER_SUFFIX| - 1];
      var kept := StripKeepsFirstLine(marker, Join(rest));
    }
    assert OccursAt(body, marker, 0);
  }

  lemma ScanMarkerLine(id: string, text: string)
    requires ScannableId(id) && NoMarker(text)
    ensures MarkerIds(CandidateMarker(id) + "\n" + text) == [id]
  {
    ScanSplitsAtNewline(CandidateMarker(id), text);
    PrintThenScan(id, "");
    assert CandidateMarker(id) + "" == CandidateMarker(id);
  }

  /** Stripping trailing whitespace never reaches into the marker, which ends in `>`. */
  lemma StrippedBodyScans(id: string, text: string)
    requires ScannableId(id) && NoMarker(text)
    ensures MarkerIds(RStrip(CandidateMarker(id) + "\n" + text) + "\n") == [id]
  {
    var kept := StripKeepsFirstLine(CandidateMarker(id), text) by {
      MarkerShape(id);
    }
    PlainTextHoldsNoMarker("");
    if kept.None? {
      ScanMarkerLine(id, "");
      assert CandidateMarker(id) + "\n" + "" == CandidateMarker(id) + "\n";
    } else {
      var line := CandidateMarker(id) + "\n" + text[..kept.value];
      PrefixHoldsNoMarker(text, kept.value);
      ScanMarkerLine(id, text[..kept.value]);
      ScanSplitsAtNewline(line, "");
      assert line + "\n" + "" == line + "\n";
    }
  }

  /** `rstrip` on a text whose first line ends in a visible character keeps that line. */
  lemma StripKeepsFirstLine(line: string, text: string) returns (kept: Option<nat>)
    requires line != "" && !IsSpace(line[|line| - 1])
    ensures kept.None? ==> RStrip(line + "\n" + text) == line
    ensures kept.Some? ==> kept.value <= |text| && RStrip(line + "\n" + text) == line + "\n" + text[..kept.value]
  {
    var s := line + "\n" + text;
    var n := RStripIsPrefix(s);
    assert s[|line| - 1] == line[|line| - 1];
    assert s[|line|] == '\n';
    if n == |line| {
      assert s[..n] == line;
      kept := None;
    } else {
      assert n > |line|;
      assert s[..n] == line + "\n" + text[..n - |line| - 1];
      kept := Some(n - |line| - 1);
    }
  }
}
