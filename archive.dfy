/** Transcript archival, second half: choosing the archive's file name (a
    sanitised session summary looked up in the session index, or a name
    derived from the time of day) and the pre-compaction hook that decides
    whether anything is written at all. */
module Archive {
  import opened Wrappers
  import opened JsValues
  import opened Sequences
  import opened Transcript

  // ---------------------------------------------------------------------------
  // sanitizeFilename

  const MaxNameLength: nat := 50

  predicate IsNameChar(c: char) {
    ('a' <= c <= 'z') || ('0' <= c <= '9')
  }

  predicate NameOrDash(s: string) {
    forall i :: 0 <= i < |s| ==> IsNameChar(s[i]) || s[i] == '-'
  }

  ghost predicate NoDoubleDash(s: string) {
    forall i, j :: 0 <= i < j < |s| && j == i + 1 ==> !(s[i] == '-' && s[j] == '-')
  }

  /** The lower-case form of one character, as far as `[a-z0-9]` can tell:
      A-Z, the Kelvin sign (to "k") and capital I with dot above (to "i"
      followed by a combining dot) are the characters whose lower case has
      a letter a-z; every other character is kept, since it is outside
      `[a-z0-9]` exactly when its lower case is. */
  function LowerChar(c: char): (r: string)
    ensures 1 <= |r| <= 2
    ensures 'A' <= c <= 'Z' ==> r == [(c as int + 32) as char] && IsNameChar(r[0])
    ensures IsNameChar(c) ==> r == [c]
    ensures (exists k :: 0 <= k < |r| && IsNameChar(r[k])) ==>
      ('A' <= c <= 'Z') || IsNameChar(c) || c == '\U{212A}' || c == '\U{0130}'
  {
    if 'A' <= c <= 'Z' then [(c as int + 32) as char]
    else if c == '\U{212A}' then "k"
    else if c == '\U{0130}' then "i\U{0307}"
    else [c]
  }

  /** `toLowerCase()`. */
  function ToLower(s: string): string
  {
    if s == [] then [] else LowerChar(s[0]) + ToLower(s[1..])
  }

  /** The letters and digits of `s`, in order. */
  function NameChars(s: string): (r: string)
    ensures |r| <= |s|
  {
    if s == [] then [] else (if IsNameChar(s[0]) then [s[0]] else []) + NameChars(s[1..])
  }

  /** `s` without its leading run of characters outside `[a-z0-9]`. */
  function SkipSeparators(s: string): (r: string)
    ensures |r| <= |s| && r == s[|s| - |r|..]
    ensures r == [] || IsNameChar(r[0])
    ensures NameChars(r) == NameChars(s)
  {
    if s != [] && !IsNameChar(s[0]) then SkipSeparators(s[1..]) else s
  }

  /** `.replace(/[^a-z0-9]+/g, '-')`: every maximal run of characters outside
      `[a-z0-9]` becomes a single '-'; letters and digits are kept in order. */
  function CollapseSeparators(s: string): (r: string)
    ensures NameOrDash(r) && NoDoubleDash(r)
    ensures NameChars(r) == NameChars(s)
    ensures s == [] <==> r == []
    ensures s != [] && IsNameChar(s[0]) ==> r[0] == s[0]
    decreases |s|
  {
    if s == [] then []
    else if IsNameChar(s[0]) then [s[0]] + CollapseSeparators(s[1..])
    else "-" + CollapseSeparators(SkipSeparators(s[1..]))
  }

  /** Only separators: characters outside `[a-z0-9]`. */
  predicate AllSeparators(s: string) {
    forall i :: 0 <= i < |s| ==> !IsNameChar(s[i])
  }

  /** A run of separators before a name character (or the end) is skipped whole. */
  lemma {:induction false} SkipWholeRun(p: string, t: string)
    requires AllSeparators(p)
    requires t == [] || IsNameChar(t[0])
    ensures SkipSeparators(p + t) == t
    decreases |p|
  {
    if p == [] {
      assert p + t == t;
    } else {
      assert (p + t)[1..] == p[1..] + t;
      SkipWholeRun(p[1..], t);
    }
  }

  /** Skipping separators stops inside a text that ends in a name character. */
  lemma {:induction false} SkipStopsEarly(x: string, y: string)
    requires x != [] && IsNameChar(x[|x| - 1])
    ensures SkipSeparators(x + y) == SkipSeparators(x) + y
    ensures SkipSeparators(x) != [] && IsNameChar(SkipSeparators(x)[|SkipSeparators(x)| - 1])
    ensures |SkipSeparators(x)| <= |x|
    decreases |x|
  {
    if !IsNameChar(x[0]) {
      assert (x + y)[1..] == x[1..] + y;
      SkipStopsEarly(x[1..], y);
    }
  }

  /** A separator run at the start collapses to one '-'. */
  lemma CollapseLeadingRun(p: string, t: string)
    requires p != [] && AllSeparators(p)
    requires t == [] || IsNameChar(t[0])
    ensures CollapseSeparators(p + t) == "-" + CollapseSeparators(t)
  {
    var s := p + t;
    assert !IsNameChar(s[0]);
    assert s[1..] == p[1..] + t;
    SkipWholeRun(p[1..], t);
    assert CollapseSeparators(s) == "-" + CollapseSeparators(SkipSeparators(s[1..]));
  }

  /** A name character in front is kept, and the rest collapses on its own. */
  lemma CollapseNameHead(w: string, x: string)
    requires w != [] && IsNameChar(w[0])
    ensures CollapseSeparators(w + x) == [w[0]] + CollapseSeparators(w[1..] + x)
  {
    assert (w + x)[1..] == w[1..] + x;
  }

  /** A separator in front starts a run that becomes '-'; a text ending in a
      name character stops that run inside itself. */
  lemma CollapseSeparatorHead(w: string, x: string)
    requires w != [] && !IsNameChar(w[0]) && IsNameChar(w[|w| - 1])
    ensures CollapseSeparators(w + x) == "-" + CollapseSeparators(SkipSeparators(w[1..]) + x)
  {
    assert (w + x)[1..] == w[1..] + x;
    SkipStopsEarly(w[1..], x);
  }

  lemma PrefixBeforeDash(a: string, b: string, c: string, d: string)
    requires b == c + "-" + d
    ensures a + b == a + c + "-" + d
  {
  }

  /** One step of `CollapseRun` past a leading name character. */
  lemma CollapseRunNameStep(w: string, p: string, t: string)
    requires w != [] && IsNameChar(w[0])
    requires CollapseSeparators(w[1..] + p + t) == CollapseSeparators(w[1..]) + "-" + CollapseSeparators(t)
    ensures CollapseSeparators(w + p + t) == CollapseSeparators(w) + "-" + CollapseSeparators(t)
  {
    ConcatAssoc(w, p, t);
    ConcatAssoc(w[1..], p, t);
    CollapseNameHead(w, p + t);
    PrefixBeforeDash([w[0]], CollapseSeparators(w[1..] + p + t), CollapseSeparators(w[1..]), CollapseSeparators(t));
  }

  /** One step of `CollapseRun` past a leading separator run inside `w`. */
  lemma CollapseRunSeparatorStep(w: string, p: string, t: string)
    requires w != [] && !IsNameChar(w[0]) && IsNameChar(w[|w| - 1])
    requires var rest := SkipSeparators(w[1..]);
      CollapseSeparators(rest + p + t) == CollapseSeparators(rest) + "-" + CollapseSeparators(t)
    ensures CollapseSeparators(w + p + t) == CollapseSeparators(w) + "-" + CollapseSeparators(t)
  {
    var rest := SkipSeparators(w[1..]);
    ConcatAssoc(w, p, t);
    ConcatAssoc(rest, p, t);
    CollapseSeparatorHead(w, p + t);
    PrefixBeforeDash("-", CollapseSeparators(rest + p + t), CollapseSeparators(rest), CollapseSeparators(t));
  }

  /** Each maximal run of separators becomes exactly one '-', in its place:
      between a text ending in a letter or digit (or nothing) and a text
      starting with one (or nothing), a separator run collapses to "-". */
  lemma {:induction false} CollapseRun(w: string, p: string, t: string)
    requires w == [] || IsNameChar(w[|w| - 1])
    requires p != [] && AllSeparators(p)
    requires t == [] || IsNameChar(t[0])
    ensures CollapseSeparators(w + p + t) == CollapseSeparators(w) + "-" + CollapseSeparators(t)
    decreases |w|
  {
    if w == [] {
      assert w + p + t == p + t;
      CollapseLeadingRun(p, t);
    } else if IsNameChar(w[0]) {
      CollapseRun(w[1..], p, t);
      CollapseRunNameStep(w, p, t);
    } else {
      SkipStopsEarly(w[1..], []);
      CollapseRun(SkipSeparators(w[1..]), p, t);
      CollapseRunSeparatorStep(w, p, t);
    }
  }

  /** `.replace(/^-+|-+$/g, '')`: leading and trailing dashes removed. */
  function StripDashes(s: string): (r: string)
    ensures exists i, j :: 0 <= i <= j <= |s| && r == s[i..j] && NameChars(r) == NameChars(s)
    ensures r == [] || (r[0] != '-' && r[|r| - 1] != '-')
  {
    var t := StripLeadingDashes(s);
    var r := StripTrailingDashes(t);
    assert r == s[|s| - |t|..|s| - |t| + |r|];
    r
  }

  function StripLeadingDashes(s: string): (r: string)
    ensures |r| <= |s| && r == s[|s| - |r|..]
    ensures NameChars(r) == NameChars(s)
    ensures r == [] || r[0] != '-'
  {
    if s != [] && s[0] == '-' then StripLeadingDashes(s[1..]) else s
  }

  function StripTrailingDashes(s: string): (r: string)
    ensures |r| <= |s| && r == s[..|r|]
    ensures NameChars(r) == NameChars(s)
    ensures r == [] || r[|r| - 1] != '-'
  {
    if s != [] && s[|s| - 1] == '-' then
      NameCharsOfDashSuffix(s[..|s| - 1], '-');
      assert s == s[..|s| - 1] + ['-'];
      StripTrailingDashes(s[..|s| - 1])
    else s
  }

  lemma {:induction false} NameCharsOfDashSuffix(s: string, c: char)
    requires !IsNameChar(c)
    ensures NameChars(s + [c]) == NameChars(s)
  {
    if s != [] {
      assert (s + [c])[1..] == s[1..] + [c];
      NameCharsOfDashSuffix(s[1..], c);
    } else {
      assert NameChars([c]) == [] + NameChars([]);
    }
  }

  /** The summary in file-name form before the length cut. */
  function SanitizedUncut(summary: string): (r: string)
    ensures NameOrDash(r) && NoDoubleDash(r)
    ensures r == [] || (r[0] != '-' && r[|r| - 1] != '-')
    ensures NameChars(r) == NameChars(ToLower(summary))
  {
    var collapsed := CollapseSeparators(ToLower(summary));
    StripKeepsShape(collapsed);
    StripDashes(collapsed)
  }

  lemma StripKeepsShape(s: string)
    requires NameOrDash(s) && NoDoubleDash(s)
    ensures NameOrDash(StripDashes(s)) && NoDoubleDash(StripDashes(s))
  {
    var i, j :| 0 <= i <= j <= |s| && StripDashes(s) == s[i..j];
    SliceKeepsShape(s, i, j);
  }

  lemma SliceKeepsShape(s: string, i: nat, j: nat)
    requires i <= j <= |s| && NameOrDash(s) && NoDoubleDash(s)
    ensures NameOrDash(s[i..j]) && NoDoubleDash(s[i..j])
  {
    forall k | 0 <= k < j - i ensures s[i..j][k] == s[i + k] { }
  }

  /** `sanitizeFilename`: at most 50 characters from `a-z`, `0-9` and '-',
      never starting with '-' nor holding "--", and ending with '-' only when
      the 50-character cut fell just after a separator. */
  function SanitizeFilename(summary: string): (r: string)
    ensures |r| <= MaxNameLength
    ensures NameOrDash(r) && NoDoubleDash(r)
    ensures r == [] || r[0] != '-'
    ensures r != [] && r[|r| - 1] == '-' ==> |SanitizedUncut(summary)| > MaxNameLength
  {
    var full := SanitizedUncut(summary);
    if |full| > MaxNameLength then
      CutKeepsShape(full);
      full[..MaxNameLength]
    else full
  }

  /** The 50-character cut of a sanitised name keeps its shape and its first character. */
  lemma CutKeepsShape(full: string)
    requires |full| > MaxNameLength && NameOrDash(full) && NoDoubleDash(full) && full[0] != '-'
    ensures NameOrDash(full[..MaxNameLength]) && NoDoubleDash(full[..MaxNameLength])
    ensures full[..MaxNameLength][0] != '-'
  {
    SliceKeepsShape(full, 0, MaxNameLength);
  }

  /** Sanitising keeps every letter and digit of the lower-cased summary, in
      order, up to the length cut: only separators change. */
  lemma SanitizeKeepsLettersAndDigits(summary: string)
    ensures NameChars(SanitizedUncut(summary)) == NameChars(ToLower(summary))
    ensures |SanitizedUncut(summary)| <= MaxNameLength ==> SanitizeFilename(summary) == SanitizedUncut(summary)
    ensures |SanitizedUncut(summary)| > MaxNameLength ==> SanitizeFilename(summary) == SanitizedUncut(summary)[..MaxNameLength]
  {
  }

  lemma LowerSpacedWords()
    ensures ToLower("A b") == "a b"
  {
    assert "A b"[1..] == " b" && " b"[1..] == "b" && "b"[1..] == "";
  }

  lemma CollapseSingleNameChar(c: char)
    requires IsNameChar(c)
    ensures CollapseSeparators([c]) == [c]
  {
    assert [c][1..] == [];
  }

  lemma CollapseSpacedWords()
    ensures CollapseSeparators("a b") == "a-b"
  {
    var w, p, t := ['a'], [' '], ['b'];
    assert AllSeparators(p);
    CollapseRun(w, p, t);
    assert w + p + t == "a b";
    CollapseSingleNameChar('a');
    CollapseSingleNameChar('b');
    assert w + "-" + t == "a-b";
  }

  lemma StripDashedWords()
    ensures StripDashes("a-b") == "a-b"
  {
    assert StripLeadingDashes("a-b") == "a-b";
    assert StripTrailingDashes("a-b") == "a-b";
  }

  /** A worked instance: the space between two words becomes a '-', and the
      capital is lowered. */
  lemma SanitizeSpacedWords()
    ensures SanitizeFilename("A b") == "a-b"
  {
    LowerSpacedWords();
    CollapseSpacedWords();
    StripDashedWords();
  }

  /** A name that was not cut just after a separator is its own sanitised form. */
  lemma SanitizeIdempotent(summary: string)
    requires var r := SanitizeFilename(summary); r == [] || r[|r| - 1] != '-'
    ensures SanitizeFilename(SanitizeFilename(summary)) == SanitizeFilename(summary)
  {
    var r := SanitizeFilename(summary);
    LowerOfName(r);
    CollapseOfName(r);
    assert StripLeadingDashes(r) == r;
    assert StripTrailingDashes(r) == r;
  }

  lemma {:induction false} LowerOfName(s: string)
    requires NameOrDash(s)
    ensures ToLower(s) == s
  {
    if s != [] {
      LowerOfName(s[1..]);
    }
  }

  lemma {:induction false} CollapseOfName(s: string)
    requires NameOrDash(s) && NoDoubleDash(s)
    ensures CollapseSeparators(s) == s
    decreases |s|
  {
    if s != [] {
      if !IsNameChar(s[0]) {
        assert SkipSeparators(s[1..]) == s[1..];
      }
      CollapseOfName(s[1..]);
    }
  }

  // ---------------------------------------------------------------------------
  // Session index lookup

  /** `SessionEntry` of the session index. */
  datatype SessionEntry = SessionEntry(sessionId: string, fullPath: string, summary: string, firstPrompt: string)

  /** The session index as read next to the transcript: absent, unreadable
      (including undecodable), or its entries. */
  datatype SessionsIndex = IndexMissing | IndexUnreadable | IndexEntries(entries: seq<SessionEntry>)

  /** `entries.find(e => e.sessionId === sessionId)`, as a position. */
  function FindSession(entries: seq<SessionEntry>, sessionId: string): (r: Option<nat>)
    ensures r.Some? ==> r.value < |entries| && entries[r.value].sessionId == sessionId
    ensures r.Some? ==> forall j :: 0 <= j < r.value ==> entries[j].sessionId != sessionId
    ensures r.None? ==> forall j :: 0 <= j < |entries| ==> entries[j].sessionId != sessionId
  {
    if entries == [] then None
    else if entries[0].sessionId == sessionId then Some(0)
    else match FindSession(entries[1..], sessionId)
      case None => None
      case Some(i) => Some(i + 1)
  }

  /** `getSessionSummary`: the summary of the FIRST entry of this session,
      when that summary is non-empty; null when the index is missing or
      unreadable, when no entry matches, or when the first match has no
      summary (later matches are not consulted). */
  function GetSessionSummary(sessionId: string, index: SessionsIndex): (r: Option<string>)
    ensures r.Some? ==> r.value != ""
    ensures r.Some? <==> index.IndexEntries? && FindSession(index.entries, sessionId).Some?
                         && index.entries[FindSession(index.entries, sessionId).value].summary != ""
    ensures r.Some? ==> r.value == index.entries[FindSession(index.entries, sessionId).value].summary
  {
    match index
    case IndexEntries(entries) =>
      (match FindSession(entries, sessionId)
       case Some(i) => if entries[i].summary != "" then Some(entries[i].summary) else None
       case None => None)
    case _ => None
  }

  /** A later entry of the same session is never consulted once the first has an empty summary. */
  lemma FirstMatchDecides(sessionId: string, path: string, prompt: string, later: string)
    ensures GetSessionSummary(sessionId, IndexEntries([SessionEntry(sessionId, path, "", prompt),
                                                       SessionEntry(sessionId, path, later, prompt)])).None?
  {
  }

  // ---------------------------------------------------------------------------
  // Fallback name and archive decision

  /** `n.toString().padStart(2, '0')` for a number below 100. */
  function TwoDigits(n: nat): (r: string)
    requires n < 100
    ensures |r| == 2 && AllDigits(r) && DigitsValue(r) == n
  {
    NatToStringValue(n);
    var s := NatToString(n);
    if n < 10 then
      assert s[..0] == [];
      assert ("0" + s)[..1] == "0";
      "0" + s
    else
      assert |NatToString(n / 10)| == 1;
      s
  }

  /** `generateFallbackName`: "conversation-" and the local hour and minute
      as two digits each, which read back as that hour and minute. */
  function FallbackName(hours: nat, minutes: nat): (r: string)
    requires hours < 24 && minutes < 60
    ensures |r| == 17 && r[..13] == "conversation-"
    ensures AllDigits(r[13..]) && DigitsValue(r[13..15]) == hours && DigitsValue(r[15..]) == minutes
  {
    var r := "conversation-" + TwoDigits(hours) + TwoDigits(minutes);
    assert r[13..15] == TwoDigits(hours) && r[15..] == TwoDigits(minutes);
    r
  }

  /** The archive's name: the sanitised summary when there is one, the
      time-of-day name otherwise. */
  function ArchiveName(summary: Option<string>, hours: nat, minutes: nat): (r: string)
    requires hours < 24 && minutes < 60
    ensures Truthy(summary) ==> r == SanitizeFilename(summary.value)
    ensures !Truthy(summary) ==> r == FallbackName(hours, minutes)
    ensures |r| <= MaxNameLength && NameOrDash(r)
  {
    if Truthy(summary) then SanitizeFilename(summary.value)
    else
      var r := FallbackName(hours, minutes);
      assert NameOrDash(r) by {
        assert forall k :: 13 <= k < 17 ==> r[k] == r[13..][k - 13];
      }
      r
  }

  const ConversationsDir: string := "/workspace/group/conversations"

  /** `${date}-${name}.md`. */
  function ArchiveFileName(date: string, name: string): (r: string)
    ensures |r| == |date| + |name| + 4
    ensures r[..|date|] == date && r[|date|] == '-'
    ensures r[|date| + 1..|r| - 3] == name && r[|r| - 3..] == ".md"
  {
    date + "-" + name + ".md"
  }

  /** The transcript file named by the hook's input: absent, unreadable, or its lines. */
  datatype TranscriptFile = TranscriptMissing | TranscriptUnreadable | TranscriptLines(lines: seq<TranscriptLine>)

  datatype ArchiveWrite = ArchiveWrite(path: string, markdown: string)

  /** The pre-compaction hook: nothing is written when there is no transcript
      path, no readable transcript, or no turn in it, nor when creating the
      conversations directory or writing the file fails (`write`; the hook
      swallows that error); otherwise one archive named `<date>-<name>.md`
      holding the rendered turns, titled with the session summary. `date` is
      the ISO date, `hours`/`minutes` the local time and `archivedAt` the
      formatted time of archiving. */
  method PreCompactHook(transcriptPath: Option<string>, file: TranscriptFile, sessionId: string,
                        index: SessionsIndex, date: string, hours: nat, minutes: nat, archivedAt: string,
                        write: Outcome<string>)
    returns (written: Option<ArchiveWrite>)
    requires hours < 24 && minutes < 60
    ensures written.None? <==>
      !Truthy(transcriptPath) || !file.TranscriptLines? || Keep(ParseLine, file.lines) == [] || write.Fail?
    ensures written.Some? ==>
      written.value.path == ConversationsDir + "/" + ArchiveFileName(date, ArchiveName(GetSessionSummary(sessionId, index), hours, minutes))
    ensures written.Some? ==>
      written.value.markdown == JoinLines(MarkdownLines(Keep(ParseLine, file.lines), GetSessionSummary(sessionId, index), archivedAt))
  {
    if !Truthy(transcriptPath) || file.TranscriptMissing? {
      return None;
    }
    if file.TranscriptUnreadable? {
      return None;
    }
    var messages := ParseTranscript(file.lines);
    if |messages| == 0 {
      return None;
    }
    var summary := GetSessionSummary(sessionId, index);
    var name := ArchiveName(summary, hours, minutes);
    var filename := ArchiveFileName(date, name);
    var markdown := FormatTranscriptMarkdown(messages, summary, archivedAt);
    if write.Fail? {
      return None;
    }
    written := Some(ArchiveWrite(ConversationsDir + "/" + filename, markdown));
  }
}
