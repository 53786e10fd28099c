/** Transcript archival, first half: turning the newline-delimited session
    transcript into user/assistant turns (`parseTranscript`) and rendering
    those turns as a markdown document (`formatTranscriptMarkdown`). */
module Transcript {
  import opened Wrappers
  import opened JsValues
  import opened Sequences

  datatype Role = User | Assistant

  /** `ParsedMessage`: one turn of the conversation. */
  datatype ParsedMessage = ParsedMessage(role: Role, content: string)

  /** One element of an array-valued `message.content`: its `type` and its
      `text`, either possibly absent. */
  datatype Part = Part(partType: Option<string>, text: Option<string>)

  /** The decoded `message.content` of a transcript entry. */
  datatype Content =
    | Falsy                     // absent, null, or another falsy value
    | Str(s: string)            // a string (the empty string is falsy)
    | Parts(parts: seq<Part>)   // an array of parts
    | OtherValue                // any other truthy value, such as a number or an object

  /** One line of the transcript after JSON decoding: a line that is empty
      after trimming, a line that does not decode, or an entry with its
      `type` and `message.content`. */
  datatype TranscriptLine =
    | Blank
    | Malformed
    | Entry(entryType: string, content: Content)

  predicate IsTruthy(c: Content) {
    !c.Falsy? && c != Str("")
  }

  /** A user turn's text: the string itself, or the parts' `text` values
      concatenated, a missing or empty `text` counting as "". */
  function UserText(parts: seq<Part>): string
  {
    if parts == [] then "" else UserText(parts[..|parts| - 1]) + Or(parts[|parts| - 1].text, "")
  }

  /** An assistant turn's text: the `text` of the parts whose `type` is
      "text", concatenated (a missing `text` joins as ""). */
  function AssistantText(parts: seq<Part>): string
  {
    if parts == [] then "" else AssistantText(parts[..|parts| - 1]) + AssistantPartText(parts[|parts| - 1])
  }

  /** What one part adds to an assistant turn: its `text` when its `type` is "text". */
  function AssistantPartText(p: Part): string {
    if p.partType == Some("text") then p.text.GetOr("") else ""
  }

  /** The user-style text of a run of parts is the texts of its two halves, joined. */
  lemma {:induction false} UserTextAppend(a: seq<Part>, b: seq<Part>)
    ensures UserText(a + b) == UserText(a) + UserText(b)
    decreases |b|
  {
    if b == [] {
      assert a + b == a;
    } else {
      var front := b[..|b| - 1];
      assert (a + b)[..|a + b| - 1] == a + front;
      UserTextAppend(a, front);
    }
  }

  /** A part an assistant turn keeps: one whose `type` is "text". */
  function TextPart(p: Part): Option<Part> {
    if p.partType == Some("text") then Some(p) else None
  }

  /** A single part, kept or not, contributes the same text either way. */
  lemma TextPartText(p: Part)
    ensures UserText(AsSeq(TextPart(p))) == AssistantPartText(p)
  {
    if TextPart(p).Some? {
      assert [p][..0] == [];
    }
  }

  /** An assistant turn's text is the joined texts of exactly its "text"
      parts, in order: the `filter` then `map` then `join` of the source. */
  lemma {:induction false} AssistantTextIsJoinOfTextParts(parts: seq<Part>)
    ensures AssistantText(parts) == UserText(Keep(TextPart, parts))
    decreases |parts|
  {
    if parts != [] {
      var front, last := parts[..|parts| - 1], parts[|parts| - 1];
      AssistantTextIsJoinOfTextParts(front);
      assert parts == front + [last];
      KeepSnoc(TextPart, front, last);
      UserTextAppend(Keep(TextPart, front), AsSeq(TextPart(last)));
      TextPartText(last);
    }
  }

  /** A part whose `type` is not "text" adds nothing to an assistant turn,
      wherever it stands. */
  lemma AssistantTextIgnoresOtherParts(before: seq<Part>, p: Part, after: seq<Part>)
    requires p.partType != Some("text")
    ensures AssistantText(before + [p] + after) == AssistantText(before + after)
  {
    AssistantTextIsJoinOfTextParts(before + [p] + after);
    AssistantTextIsJoinOfTextParts(before + after);
    KeepAppend(TextPart, before + [p], after);
    KeepSnoc(TextPart, before, p);
    assert AsSeq(TextPart(p)) == [];
    assert Keep(TextPart, before + [p]) == Keep(TextPart, before);
    KeepAppend(TextPart, before, after);
  }

  /** What one transcript line contributes: at most one turn. A string
      content on an assistant line, or a non-string non-array content on
      either kind, throws inside the `try` and contributes nothing. */
  function ParseLine(line: TranscriptLine): (r: Option<ParsedMessage>)
    ensures r.Some? ==> line.Entry? && IsTruthy(line.content) && r.value.content != ""
    ensures r.Some? ==> (r.value.role == User <==> line.entryType == "user")
    ensures r.Some? ==> (r.value.role == Assistant <==> line.entryType == "assistant")
    ensures r.Some? && r.value.role == Assistant ==> line.content.Parts?
    ensures r.Some? ==> !line.content.OtherValue?
    ensures line.Entry? && line.entryType == "user" && line.content.Str? && line.content.s != "" ==>
      r == Some(ParsedMessage(User, line.content.s))
    ensures line.Entry? && line.entryType == "user" && line.content.Parts? ==>
      (UserText(line.content.parts) != "" <==> r.Some?) &&
      (r.Some? ==> r.value == ParsedMessage(User, UserText(line.content.parts)))
    ensures line.Entry? && line.entryType == "assistant" && line.content.Parts? ==>
      (AssistantText(line.content.parts) != "" <==> r.Some?) &&
      (r.Some? ==> r.value == ParsedMessage(Assistant, AssistantText(line.content.parts)))
  {
    match line
    case Blank => None
    case Malformed => None
    case Entry(t, c) =>
      if t == "user" && IsTruthy(c) then
        match c
        case Str(s) => Some(ParsedMessage(User, s))
        case Parts(ps) => var text := UserText(ps); if text != "" then Some(ParsedMessage(User, text)) else None
        case _ => None
      else if t == "assistant" && IsTruthy(c) then
        match c
        case Parts(ps) => var text := AssistantText(ps); if text != "" then Some(ParsedMessage(Assistant, text)) else None
        case _ => None
      else None
  }

  /** `parseTranscript`: the turns of the transcript, line by line. */
  method ParseTranscript(lines: seq<TranscriptLine>) returns (messages: seq<ParsedMessage>)
    ensures messages == Keep(ParseLine, lines)
  {
    messages := [];
    for i := 0 to |lines|
      invariant messages == Keep(ParseLine, lines[..i])
    {
      KeepSnoc(ParseLine, lines[..i], lines[i]);
      assert lines[..i + 1] == lines[..i] + [lines[i]];
      var m := ParseLine(lines[i]);
      if m.Some? {
        messages := messages + [m.value];
      }
    }
    assert lines[..|lines|] == lines;
  }

  /** Blank, undecodable and foreign-typed lines are skipped, the surviving
      turns keep the order of their lines, and every turn is non-empty text. */
  lemma TurnsFollowLineOrder(lines: seq<TranscriptLine>)
    ensures var turns := Keep(ParseLine, lines); var at := KeptIndices(ParseLine, lines);
      && |at| == |turns|
      && (forall k, l :: 0 <= k < l < |at| ==> at[k] < at[l])
      && (forall k :: 0 <= k < |turns| ==> at[k] < |lines| && ParseLine(lines[at[k]]) == Some(turns[k]))
      && (forall k :: 0 <= k < |turns| ==> turns[k].content != "")
      && (forall i :: 0 <= i < |lines| && (lines[i].Blank? || lines[i].Malformed?) ==> i !in at)
      && (forall i :: 0 <= i < |lines| && lines[i].Entry? ==>
            (lines[i].entryType != "user" && lines[i].entryType != "assistant" ==> i !in at))
  {
    KeepOrder(ParseLine, lines);
    var turns := Keep(ParseLine, lines);
    var at := KeptIndices(ParseLine, lines);
    forall k | 0 <= k < |turns| ensures turns[k].content != "" {
      assert ParseLine(lines[at[k]]) == Some(turns[k]);
    }
  }

  /** Lines that carry no turn leave the turns of the rest unchanged,
      wherever they stand. */
  lemma {:induction false} SkippedLinesChangeNothing(before: seq<TranscriptLine>, skipped: seq<TranscriptLine>, after: seq<TranscriptLine>)
    requires forall i :: 0 <= i < |skipped| ==> ParseLine(skipped[i]).None?
    ensures Keep(ParseLine, before + skipped + after) == Keep(ParseLine, before) + Keep(ParseLine, after)
  {
    var kept := Keep(ParseLine, before);
    KeepAppend(ParseLine, before, skipped);
    NothingKept(skipped);
    assert Keep(ParseLine, before + skipped) == kept + [] == kept;
    KeepAppend(ParseLine, before + skipped, after);
  }

  lemma {:induction false} NothingKept(skipped: seq<TranscriptLine>)
    requires forall i :: 0 <= i < |skipped| ==> ParseLine(skipped[i]).None?
    ensures Keep(ParseLine, skipped) == []
  {
    if skipped != [] {
      NothingKept(skipped[..|skipped| - 1]);
    }
  }

  /** An assistant line whose content is a plain string yields no turn. */
  lemma AssistantStringDropped(s: string)
    ensures ParseLine(Entry("assistant", Str(s))).None?
  {
  }

  /** Two well-formed lines around an undecodable one archive exactly two turns. */
  lemma TwoTurnsAroundMalformedLine()
    ensures Keep(ParseLine, [Entry("user", Str("hi")), Malformed,
                             Entry("assistant", Parts([Part(Some("text"), Some("hello"))]))])
         == [ParsedMessage(User, "hi"), ParsedMessage(Assistant, "hello")]
  {
    var first, last := Entry("user", Str("hi")), Entry("assistant", Parts([Part(Some("text"), Some("hello"))]));
    var hi, hello := ParsedMessage(User, "hi"), ParsedMessage(Assistant, "hello");
    ParsesBothTurns();
    calc {
      Keep(ParseLine, [first, Malformed, last]);
      { assert [first, Malformed, last] == [first, Malformed] + [last];
        KeepSnoc(ParseLine, [first, Malformed], last); }
      Keep(ParseLine, [first, Malformed]) + [hello];
      { assert [first, Malformed] == [first] + [Malformed];
        KeepSnoc(ParseLine, [first], Malformed); }
      Keep(ParseLine, [first]) + [hello];
      { assert [first] == [] + [first];
        KeepSnoc(ParseLine, [], first); }
      [hi] + [hello];
    }
  }

  lemma ParsesBothTurns()
    ensures ParseLine(Entry("user", Str("hi"))) == Some(ParsedMessage(User, "hi"))
    ensures ParseLine(Entry("assistant", Parts([Part(Some("text"), Some("hello"))])))
      == Some(ParsedMessage(Assistant, "hello"))
  {
    var parts := [Part(Some("text"), Some("hello"))];
    assert parts[..0] == [];
    assert AssistantText(parts) == "hello";
  }

  // ---------------------------------------------------------------------------
  // Markdown rendering

  const TruncateAt: nat := 2000

  /** A turn's content as archived: cut to its first 2000 characters plus
      "..." when longer, unchanged otherwise. */
  function Truncate(content: string): (r: string)
    ensures |content| <= TruncateAt ==> r == content
    ensures |content| > TruncateAt ==> |r| == TruncateAt + 3 && r[..TruncateAt] == content[..TruncateAt]
    ensures |content| > TruncateAt ==> r[TruncateAt..] == "..."
    ensures |r| <= TruncateAt + 3
  {
    if |content| > TruncateAt then content[..TruncateAt] + "..." else content
  }

  function SenderLabel(role: Role): string {
    if role == User then "User" else "Assistant"
  }

  /** The six lines that open every archive. */
  function HeaderLines(title: Option<string>, archivedAt: string): seq<string> {
    ["# " + Or(title, "Conversation"), "", "Archived: " + archivedAt, "", "---", ""]
  }

  function TurnLines(m: ParsedMessage): seq<string> {
    ["**" + SenderLabel(m.role) + "**: " + Truncate(m.content), ""]
  }

  function BodyLines(messages: seq<ParsedMessage>): seq<string>
  {
    if messages == [] then [] else BodyLines(messages[..|messages| - 1]) + TurnLines(messages[|messages| - 1])
  }

  lemma BodyStep(messages: seq<ParsedMessage>, i: nat)
    requires i < |messages|
    ensures BodyLines(messages[..i + 1]) == BodyLines(messages[..i]) + TurnLines(messages[i])
  {
    assert messages[..i + 1][..i] == messages[..i];
  }

  /** The lines of the archive, before they are joined with newlines;
      `archivedAt` is the locale-formatted time of archiving. */
  function MarkdownLines(messages: seq<ParsedMessage>, title: Option<string>, archivedAt: string): seq<string> {
    HeaderLines(title, archivedAt) + BodyLines(messages)
  }

  /** `formatTranscriptMarkdown`: pushes the header lines and two lines per
      turn, then joins them with newlines. */
  method FormatTranscriptMarkdown(messages: seq<ParsedMessage>, title: Option<string>, archivedAt: string)
    returns (markdown: string)
    ensures markdown == JoinLines(MarkdownLines(messages, title, archivedAt))
  {
    var lines: seq<string> := [];
    lines := lines + ["# " + Or(title, "Conversation")];
    lines := lines + [""];
    lines := lines + ["Archived: " + archivedAt];
    lines := lines + [""];
    lines := lines + ["---"];
    lines := lines + [""];
    assert lines == HeaderLines(title, archivedAt);
    for i := 0 to |messages|
      invariant lines == HeaderLines(title, archivedAt) + BodyLines(messages[..i])
    {
      var msg := messages[i];
      var sender := if msg.role == User then "User" else "Assistant";
      var content := if |msg.content| > 2000 then msg.content[..2000] + "..." else msg.content;
      ghost var before := lines;
      lines := lines + ["**" + sender + "**: " + content];
      lines := lines + [""];
      BodyStep(messages, i);
      assert lines == before + TurnLines(msg);
      ConcatAssoc(HeaderLines(title, archivedAt), BodyLines(messages[..i]), TurnLines(msg));
    }
    assert messages[..|messages|] == messages;
    markdown := JoinLines(lines);
  }

  /** The archive has the six header lines, then exactly two lines per turn,
      in turn order: the labelled, truncated content and an empty line. */
  lemma {:induction false} MarkdownLayout(messages: seq<ParsedMessage>, title: Option<string>, archivedAt: string)
    ensures var lines := MarkdownLines(messages, title, archivedAt);
      && |lines| == 6 + 2 * |messages|
      && lines[0] == "# " + Or(title, "Conversation")
      && lines[2] == "Archived: " + archivedAt
      && lines[4] == "---"
      && lines[1] == lines[3] == lines[5] == ""
      && (forall k :: 0 <= k < |messages| ==>
            lines[6 + 2 * k] == "**" + SenderLabel(messages[k].role) + "**: " + Truncate(messages[k].content)
            && lines[7 + 2 * k] == "")
  {
    BodyLayout(messages);
    var lines := MarkdownLines(messages, title, archivedAt);
    forall k | 0 <= k < |messages|
      ensures lines[6 + 2 * k] == "**" + SenderLabel(messages[k].role) + "**: " + Truncate(messages[k].content)
      ensures lines[7 + 2 * k] == ""
    {
      assert lines[6 + 2 * k] == BodyLines(messages)[2 * k] == TurnLines(messages[k])[0];
      assert lines[7 + 2 * k] == BodyLines(messages)[2 * k + 1] == TurnLines(messages[k])[1];
    }
  }

  lemma {:induction false} BodyLayout(messages: seq<ParsedMessage>)
    ensures |BodyLines(messages)| == 2 * |messages|
    ensures forall k :: 0 <= k < |messages| ==>
      BodyLines(messages)[2 * k] == TurnLines(messages[k])[0] && BodyLines(messages)[2 * k + 1] == TurnLines(messages[k])[1]
  {
    if messages != [] {
      var init := messages[..|messages| - 1];
      BodyLayout(init);
      var n := |messages| - 1;
      var body, front, last := BodyLines(messages), BodyLines(init), TurnLines(messages[n]);
      assert body == front + last;
      assert |front| == 2 * n;
      forall k | 0 <= k < |messages|
        ensures body[2 * k] == TurnLines(messages[k])[0]
        ensures body[2 * k + 1] == TurnLines(messages[k])[1]
      {
        if k < n {
          assert messages[k] == init[k];
          assert 2 * k + 1 < |front|;
          assert body[2 * k] == front[2 * k];
          assert body[2 * k + 1] == front[2 * k + 1];
        } else {
          assert 2 * k == |front|;
          assert body[2 * k] == last[0];
          assert body[2 * k + 1] == last[1];
        }
      }
    }
  }
}
