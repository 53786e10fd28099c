/** The agent runner's memory: `HybridMemory`, which holds an optional
    connection to a vector store and a knowledge document, and the
    assembly of the context string placed before each prompt. */
module Memory {
  import opened Wrappers
  import opened JsValues
  import opened Sequences

  const DbPath: string := "/workspace/group/vectordb"
  const KnowledgePath: string := "/workspace/group/KNOWLEDGE.md"
  const MemoriesTable: string := "memories"
  const UnknownGroup: string := "unknown"

  /** `MemoryEntry` without its embedding vector, which belongs to the store. */
  datatype Metadata = Metadata(memoryType: string, group: string, timestamp: string)
  datatype MemoryEntry = MemoryEntry(content: string, metadata: Metadata)

  // ---------------------------------------------------------------------------
  // Knowledge sections

  /** The methods a plain object inherits from `Object.prototype`, other
      than its constructor. */
  const PrototypeMethods: set<string> := {
    "__defineGetter__", "__defineSetter__", "__lookupGetter__", "__lookupSetter__",
    "hasOwnProperty", "isPrototypeOf", "propertyIsEnumerable", "toLocaleString", "toString", "valueOf"}

  /** Keys an object literal answers through its prototype rather than its own properties. */
  predicate InheritedKey(key: string) {
    key == "constructor" || key == "__proto__" || key in PrototypeMethods
  }

  /** How a built-in function renders inside a template string. */
  function NativeFunctionText(name: string): string {
    "function " + name + "() { [native code] }"
  }

  /** `getSectionName`: the heading for a memory category. The lookup
      `sections[type]` also reaches the inherited members of the object
      literal, which are truthy and so render in place of "Other". */
  function SectionName(memoryType: string): (r: string)
    ensures memoryType == "instruction" ==> r == "System Instructions"
    ensures memoryType == "preference" ==> r == "User Preferences"
    ensures memoryType == "fact" ==> r == "Important Facts"
    ensures r == "Other" <==> memoryType !in {"instruction", "preference", "fact"} && !InheritedKey(memoryType)
    ensures memoryType == "constructor" ==> r == NativeFunctionText("Object")
    ensures memoryType in PrototypeMethods ==> r == NativeFunctionText(memoryType)
    ensures memoryType == "__proto__" ==> r == "[object Object]"
  {
    if memoryType == "instruction" then "System Instructions"
    else if memoryType == "preference" then "User Preferences"
    else if memoryType == "fact" then "Important Facts"
    else if memoryType == "constructor" then NativeFunctionText("Object")
    else if memoryType == "__proto__" then "[object Object]"
    else if memoryType in PrototypeMethods then NativeFunctionText(memoryType)
    else "Other"
  }

  /** The text `appendToKnowledge` adds for one entry. */
  function KnowledgeSection(memoryType: string, timestamp: string, content: string): string {
    "\n## " + SectionName(memoryType) + " (" + timestamp + ")\n\n" + content + "\n"
  }

  /** The knowledge document after `appendToKnowledge`: the section is added
      at the end when the append succeeds, and nothing changes when it fails;
      what was there before is never rewritten. */
  function AppendToKnowledge(document: string, memoryType: string, timestamp: string, content: string, appendSucceeds: bool)
    : (r: string)
    ensures |r| >= |document| && r[..|document|] == document
    ensures appendSucceeds ==> r[|document|..] == KnowledgeSection(memoryType, timestamp, content)
    ensures !appendSucceeds ==> r == document
  {
    if appendSucceeds then document + KnowledgeSection(memoryType, timestamp, content) else document
  }

  /** The knowledge document as `readKnowledge` finds it. */
  datatype KnowledgeFile = KnowledgeMissing | KnowledgeUnreadable | KnowledgeText(text: string)

  /** `readKnowledge`: the document's text, or "" when it is missing or unreadable. */
  function ReadKnowledge(file: KnowledgeFile): (r: string)
    ensures file.KnowledgeText? ==> r == file.text
    ensures !file.KnowledgeText? ==> r == ""
  {
    match file
    case KnowledgeText(text) => text
    case _ => ""
  }

  // ---------------------------------------------------------------------------
  // Group scope: `getCurrentGroup`, the first match of /\/groups\/([^\/]+)\//

  /** The longest prefix of `s` without a '/'. */
  function NonSlashRun(s: string): (r: string)
    ensures |r| <= |s| && r == s[..|r|] && '/' !in r
    ensures |r| < |s| ==> s[|r|] == '/'
  {
    if s == [] || s[0] == '/' then [] else [s[0]] + NonSlashRun(s[1..])
  }

  const GroupsMarker: string := "/groups/"

  /** The group captured by a match of the pattern starting at position `i`:
      "/groups/", then a non-empty run without '/', then '/'. */
  function MatchAt(path: string, i: nat): (r: Option<string>)
    ensures r.Some? ==>
      r.value != [] && '/' !in r.value && i + |r.value| + 9 <= |path|
      && path[i..i + |r.value| + 9] == GroupsMarker + r.value + "/"
  {
    if i + 8 <= |path| && path[i..i + 8] == GroupsMarker then
      var segment := NonSlashRun(path[i + 8..]);
      if segment != [] && i + 8 + |segment| < |path| then
        assert path[i..i + |segment| + 9] == path[i..i + 8] + path[i + 8..][..|segment|] + [path[i + 8 + |segment|]];
        Some(segment)
      else None
    else None
  }

  /** The pattern matches at `i` exactly when "/groups/<g>/" starts there for
      a non-empty `g` without '/', and then it captures that `g`. */
  lemma MatchAtComplete(path: string, i: nat, g: string)
    requires g != [] && '/' !in g
    requires i + |g| + 9 <= |path| && path[i..i + |g| + 9] == GroupsMarker + g + "/"
    ensures MatchAt(path, i) == Some(g)
  {
    var rest := path[i + 8..];
    var window := path[i..i + |g| + 9];
    assert path[i..i + 8] == window[..8] == GroupsMarker;
    assert rest[..|g| + 1] == window[8..] == g + "/";
    NonSlashRunOf(rest, g);
  }

  lemma {:induction false} NonSlashRunOf(s: string, g: string)
    requires '/' !in g && |g| < |s| && s[..|g| + 1] == g + "/"
    ensures NonSlashRun(s) == g
  {
    if g != [] {
      assert s[0] == g[0];
      assert s[1..][..|g[1..]| + 1] == g[1..] + "/";
      NonSlashRunOf(s[1..], g[1..]);
    }
  }

  /** The leftmost position at or after `from` where the pattern matches. */
  function FirstMatch(path: string, from: nat): (r: Option<nat>)
    ensures r.Some? ==> from <= r.value <= |path| && MatchAt(path, r.value).Some?
    ensures r.Some? ==> forall j :: from <= j < r.value ==> MatchAt(path, j).None?
    ensures r.None? ==> forall j :: from <= j <= |path| ==> MatchAt(path, j).None?
    decreases |path| - from
  {
    if from > |path| then None
    else if MatchAt(path, from).Some? then Some(from)
    else FirstMatch(path, from + 1)
  }

  /** `getCurrentGroup` on a path: the group of the leftmost match, or "unknown". */
  function GroupOfPath(path: string): (r: string)
    ensures r != ""
    ensures FirstMatch(path, 0).Some? ==> Some(r) == MatchAt(path, FirstMatch(path, 0).value)
    ensures FirstMatch(path, 0).None? ==> r == UnknownGroup
  {
    match FirstMatch(path, 0)
    case Some(i) => MatchAt(path, i).value
    case None => UnknownGroup
  }

  /** The knowledge document's fixed path has no "/groups/<g>/" segment, so
      the group scope it yields is always "unknown". */
  lemma KnowledgePathScope()
    ensures GroupOfPath(KnowledgePath) == UnknownGroup
  {
    forall j | 0 <= j <= |KnowledgePath| ensures MatchAt(KnowledgePath, j).None? {
      NoMatchInKnowledgePath(j);
    }
  }

  /** After its first six characters the knowledge path has no 's', which
      "/groups/" would need at offset 6. */
  lemma NoMatchInKnowledgePath(j: nat)
    ensures MatchAt(KnowledgePath, j).None?
  {
    if j + 8 <= |KnowledgePath| {
      var window := KnowledgePath[j..j + 8];
      assert KnowledgePath[j + 6] != 's';
      assert window[6] != GroupsMarker[6];
    }
  }

  // ---------------------------------------------------------------------------
  // Vector search results

  /** The first `limit` entries of `ranked` that belong to `group`: what the
      store's `where group = ...` filter and `limit` keep of its ranking. */
  function InGroup(ranked: seq<MemoryEntry>, group: string, limit: nat): (r: seq<MemoryEntry>)
    ensures |r| <= limit
    ensures forall k :: 0 <= k < |r| ==> r[k].metadata.group == group && r[k] in ranked
    ensures limit > 0 && (exists k :: 0 <= k < |ranked| && ranked[k].metadata.group == group) ==> r != []
  {
    if ranked == [] || limit == 0 then []
    else if ranked[0].metadata.group == group then
      [ranked[0]] + InGroup(ranked[1..], group, limit - 1)
    else
      assert forall k :: 1 <= k < |ranked| ==> ranked[k] == ranked[1..][k - 1];
      InGroup(ranked[1..], group, limit)
  }

  /** The store's `where group = ...` filter, entry by entry. */
  function OfGroup(group: string): MemoryEntry -> Option<MemoryEntry> {
    (e: MemoryEntry) => if e.metadata.group == group then Some(e) else None
  }

  /** At most the first `n` elements of `s`. */
  function Prefix<T>(s: seq<T>, n: nat): (r: seq<T>)
    ensures |r| <= n && r <= s
  {
    if |s| <= n then s else s[..n]
  }

  lemma PrefixCons<T>(x: T, t: seq<T>, n: nat)
    requires n > 0
    ensures Prefix([x] + t, n) == [x] + Prefix(t, n - 1)
  {
    if |t| > n - 1 {
      assert ([x] + t)[..n] == [x] + t[..n - 1];
    }
  }

  /** `InGroup` is exactly the first `limit` entries of the ranking filtered
      to the group, in ranking order. */
  lemma {:induction false} InGroupIsFilteredPrefix(ranked: seq<MemoryEntry>, group: string, limit: nat)
    ensures InGroup(ranked, group, limit) == Prefix(Keep(OfGroup(group), ranked), limit)
    decreases |ranked|
  {
    if ranked != [] && limit > 0 {
      var x, rest := ranked[0], ranked[1..];
      assert ranked == [x] + rest;
      KeepCons(OfGroup(group), x, rest);
      var tail := Keep(OfGroup(group), rest);
      if x.metadata.group == group {
        InGroupIsFilteredPrefix(rest, group, limit - 1);
        assert Keep(OfGroup(group), ranked) == [x] + tail;
        PrefixCons(x, tail, limit);
      } else {
        InGroupIsFilteredPrefix(rest, group, limit);
        assert Keep(OfGroup(group), ranked) == tail;
      }
    }
  }

  /** The vector search as the store answers it: a failure (of the embedding
      call or of the query), or its entries ranked by similarity to the query. */
  datatype SearchOutcome = SearchFailed | Ranked(entries: seq<MemoryEntry>)

  /** The outcome of `initialize`: the connection fails, or it succeeds with
      the existing table names and opening or creating the table succeeds or
      fails. */
  datatype InitOutcome = ConnectFailed | Connected(tableNames: seq<string>, tableReady: bool)

  datatype TableOrigin = Created | Opened

  // ---------------------------------------------------------------------------
  // Memory context

  const MemoriesHeading: string := "## Relevant Past Memories"

  function MemoryLines(memories: seq<MemoryEntry>): (r: seq<string>)
    ensures |r| == |memories|
    ensures forall k :: 0 <= k < |r| ==> r[k] == "- " + memories[k].content
  {
    if memories == [] then [] else MemoryLines(memories[..|memories| - 1]) + ["- " + memories[|memories| - 1].content]
  }

  /** The context placed before the prompt: the knowledge document, a
      heading, and one "- " line per retrieved memory, the whole trimmed. */
  function MemoryContext(knowledge: string, memories: seq<MemoryEntry>): string {
    Trim("\n" + knowledge + "\n\n" + MemoriesHeading + "\n" + JoinLines(MemoryLines(memories)) + "\n  ")
  }

  /** What the knowledge document contributes to the context: nothing when
      it is blank, otherwise its text without leading white space and a blank line. */
  function KnowledgeFront(knowledge: string): string {
    if AllWhitespace(knowledge) then "" else TrimStart(knowledge) + "\n\n"
  }

  /** The context is the knowledge document without its leading white space
      (and nothing at all when it is blank), the heading, and then the memory
      lines when there are any: with no memories the context ends at the heading. */
  lemma MemoryContextLayout(knowledge: string, memories: seq<MemoryEntry>)
    ensures MemoryContext(knowledge, memories)
      == KnowledgeFront(knowledge) + MemoriesHeading
         + (if memories == [] then "" else "\n" + TrimEnd(JoinLines(MemoryLines(memories))))
  {
    var lines := MemoryLines(memories);
    if memories != [] {
      JoinStartsWithFirst(lines);
      assert lines[0][0] == '-';
    }
    assert MemoriesHeading[0] == '#' && MemoriesHeading[|MemoriesHeading| - 1] == 's';
    TrimAroundHeading(knowledge, MemoriesHeading, JoinLines(lines));
  }

  /** The trimmed text "\n<knowledge>\n\n<heading>\n<joined>\n  " for a
      heading that starts and ends visibly. */
  lemma TrimAroundHeading(knowledge: string, heading: string, joined: string)
    requires heading != [] && !IsJsWhitespace(heading[0]) && !IsJsWhitespace(heading[|heading| - 1])
    requires joined == [] || !IsJsWhitespace(joined[0])
    ensures Trim("\n" + knowledge + "\n\n" + heading + "\n" + joined + "\n  ")
      == KnowledgeFront(knowledge) + heading + (if joined == [] then "" else "\n" + TrimEnd(joined))
  {
    ContextTrimStart(knowledge, heading, joined);
    ContextTrimEnd(knowledge, heading, joined);
  }

  lemma ContextTrimStart(knowledge: string, heading: string, joined: string)
    requires heading != [] && !IsJsWhitespace(heading[0])
    ensures TrimStart("\n" + knowledge + "\n\n" + heading + "\n" + joined + "\n  ")
      == KnowledgeFront(knowledge) + (heading + "\n" + joined + "\n  ")
  {
    var tail := heading + "\n" + joined + "\n  ";
    assert "\n" + knowledge + "\n\n" + heading + "\n" + joined + "\n  " == "\n" + (knowledge + ("\n\n" + tail));
    TrimFront(knowledge, tail);
  }

  lemma ContextTrimEnd(knowledge: string, heading: string, joined: string)
    requires heading != [] && !IsJsWhitespace(heading[|heading| - 1])
    requires joined == [] || !IsJsWhitespace(joined[0])
    ensures TrimEnd(KnowledgeFront(knowledge) + (heading + "\n" + joined + "\n  "))
      == KnowledgeFront(knowledge) + heading + (if joined == [] then "" else "\n" + TrimEnd(joined))
  {
    var front := KnowledgeFront(knowledge);
    assert front + (heading + "\n" + joined + "\n  ") == front + heading + "\n" + joined + "\n  ";
    TrimBack(front + heading, joined);
  }

  lemma TrimFront(knowledge: string, tail: string)
    requires tail != [] && !IsJsWhitespace(tail[0])
    ensures TrimStart("\n" + (knowledge + ("\n\n" + tail))) == KnowledgeFront(knowledge) + tail
  {
    if AllWhitespace(knowledge) {
      TrimFrontBlank(knowledge, tail);
    } else {
      TrimFrontText(knowledge, tail);
    }
  }

  lemma TrimBack(head: string, joined: string)
    requires head != [] && !IsJsWhitespace(head[|head| - 1])
    requires joined == [] || !IsJsWhitespace(joined[0])
    ensures TrimEnd(head + "\n" + joined + "\n  ") == head + (if joined == [] then "" else "\n" + TrimEnd(joined))
  {
    if joined == [] {
      TrimBackBare(head, joined);
    } else {
      TrimBackLines(head, joined);
    }
  }

  lemma TrimFrontBlank(knowledge: string, tail: string)
    requires AllWhitespace(knowledge)
    requires tail != [] && !IsJsWhitespace(tail[0])
    ensures TrimStart("\n" + (knowledge + ("\n\n" + tail))) == tail
  {
    calc {
      TrimStart("\n" + (knowledge + ("\n\n" + tail)));
      { TrimStartSkips("\n", knowledge + ("\n\n" + tail)); }
      TrimStart(knowledge + ("\n\n" + tail));
      { TrimStartSkips(knowledge, "\n\n" + tail); }
      TrimStart("\n\n" + tail);
      { TrimStartSkips("\n\n", tail); }
      TrimStart(tail);
    }
  }

  lemma TrimFrontText(knowledge: string, tail: string)
    requires !AllWhitespace(knowledge)
    ensures TrimStart("\n" + (knowledge + ("\n\n" + tail))) == (TrimStart(knowledge) + "\n\n") + tail
  {
    TrimStartSkips("\n", knowledge + ("\n\n" + tail));
    TrimStartAppend(knowledge, "\n\n" + tail);
  }

  lemma TrimBackBare(head: string, joined: string)
    requires head != [] && !IsJsWhitespace(head[|head| - 1])
    requires joined == []
    ensures TrimEnd(head + "\n" + joined + "\n  ") == head
  {
    assert head + "\n" + joined + "\n  " == head + "\n\n  ";
    TrimEndSkips(head, "\n\n  ");
  }

  lemma TrimBackLines(head: string, joined: string)
    requires joined != [] && !IsJsWhitespace(joined[0])
    ensures TrimEnd(head + "\n" + joined + "\n  ") == head + "\n" + TrimEnd(joined)
  {
    assert head + "\n" + joined + "\n  " == (head + "\n") + (joined + "\n  ");
    assert !AllWhitespace(joined + "\n  ") by {
      assert (joined + "\n  ")[0] == joined[0];
    }
    TrimEndAppend(head + "\n", joined + "\n  ");
    TrimEndSkips(joined, "\n  ");
  }

  lemma {:induction false} JoinStartsWithFirst(lines: seq<string>)
    requires lines != [] && lines[0] != ""
    ensures JoinLines(lines) != "" && JoinLines(lines)[0] == lines[0][0]
  {
    if |lines| > 1 {
      JoinStartsWithFirst(lines[..|lines| - 1]);
    }
  }

  /** When nothing is retrieved, the context is the knowledge document and the heading alone. */
  lemma ContextWithoutMemories(knowledge: string)
    ensures MemoryContext(knowledge, []) == KnowledgeFront(knowledge) + MemoriesHeading
  {
    MemoryContextLayout(knowledge, []);
  }

  // ---------------------------------------------------------------------------
  // HybridMemory

  /** `HybridMemory`: `db` says whether a connection is held, `table` whether
      (and how) the memories table was obtained. */
  class HybridMemory {
    var db: bool
    var table: Option<TableOrigin>
    const dbPath: string
    const knowledgePath: string
    const currentGroup: string

    constructor (groupFolder: string)
      ensures !db && table.None?
      ensures dbPath == DbPath && knowledgePath == KnowledgePath && currentGroup == groupFolder
    {
      db := false;
      table := None;
      dbPath := DbPath;
      knowledgePath := KnowledgePath;
      currentGroup := groupFolder;
    }

    /** `initialize`: opens the table when it exists, creates it otherwise;
      any failure leaves neither a connection nor a table. */
    method Initialize(outcome: InitOutcome)
      modifies this
      ensures outcome.Connected? && outcome.tableReady ==>
        db && table == Some(if MemoriesTable in outcome.tableNames then Opened else Created)
      ensures outcome.ConnectFailed? || !outcome.tableReady ==> !db && table.None?
    {
      match outcome
      case ConnectFailed =>
        db := false;
        table := None;
      case Connected(names, ready) =>
        db := true;
        if ready {
          table := Some(if MemoriesTable !in names then Created else Opened);
        } else {
          db := false;
          table := None;
        }
    }

    /** `getCurrentGroup`. */
    function CurrentGroupScope(): string
      reads this
    {
      GroupOfPath(knowledgePath)
    }

    /** `search` as written: scoped to `getCurrentGroup()`; no table or any
        failure gives no results. */
    method Search(query: string, limit: nat, outcome: SearchOutcome) returns (results: seq<MemoryEntry>)
      ensures table.None? || outcome.SearchFailed? ==> results == []
      ensures table.Some? && outcome.Ranked? ==> results == InGroup(outcome.entries, CurrentGroupScope(), limit)
    {
      if table.None? {
        return [];
      }
      match outcome
      case SearchFailed =>
        results := [];
      case Ranked(entries) =>
        results := InGroup(entries, CurrentGroupScope(), limit);
    }

    /** `search` scoped to this memory's own group. */
    method SearchInGroup(query: string, limit: nat, outcome: SearchOutcome) returns (results: seq<MemoryEntry>)
      ensures table.None? || outcome.SearchFailed? ==> results == []
      ensures table.Some? && outcome.Ranked? ==> results == InGroup(outcome.entries, currentGroup, limit)
      ensures forall k :: 0 <= k < |results| ==> results[k].metadata.group == currentGroup
    {
      if table.None? {
        return [];
      }
      match outcome
      case SearchFailed =>
        results := [];
      case Ranked(entries) =>
        results := InGroup(entries, currentGroup, limit);
    }

    /** `add`: the entry handed to the store, if any. Nothing is stored
        without a table, or when computing the embedding or storing fails;
        no failure escapes. */
    method Add(content: string, metadata: Metadata, embeddingGiven: bool, embedSucceeds: bool, storeSucceeds: bool)
      returns (stored: Option<MemoryEntry>)
      ensures table.None? ==> stored.None?
      ensures table.Some? ==>
        stored == (if (embeddingGiven || embedSucceeds) && storeSucceeds then Some(MemoryEntry(content, metadata)) else None)
    {
      if table.None? {
        return None;
      }
      if (embeddingGiven || embedSucceeds) && storeSucceeds {
        stored := Some(MemoryEntry(content, metadata));
      } else {
        stored := None;
      }
    }
  }

  /** As written, a memory is searched for in the scope of its knowledge
      path, which is always "unknown": an entry stored for any other group is
      never returned, whatever the store ranks. */
  lemma AsWrittenSearchMissesGroup(groupFolder: string, ranked: seq<MemoryEntry>, limit: nat)
    requires groupFolder != UnknownGroup
    ensures forall k :: 0 <= k < |InGroup(ranked, GroupOfPath(KnowledgePath), limit)| ==>
      InGroup(ranked, GroupOfPath(KnowledgePath), limit)[k].metadata.group != groupFolder
  {
    KnowledgePathScope();
  }

  /** Scoped to its own group, a search returns as its first result the
      group's entry that the store ranks highest. */
  lemma {:induction false} GroupSearchFindsGroup(groupFolder: string, ranked: seq<MemoryEntry>, limit: nat, k: nat)
    requires k < |ranked| && ranked[k].metadata.group == groupFolder && limit > 0
    requires forall j :: 0 <= j < k ==> ranked[j].metadata.group != groupFolder
    ensures InGroup(ranked, groupFolder, limit) != []
    ensures InGroup(ranked, groupFolder, limit)[0] == ranked[k]
    decreases k
  {
    if k > 0 {
      assert ranked[1..][k - 1] == ranked[k];
      GroupSearchFindsGroup(groupFolder, ranked[1..], limit, k - 1);
    }
  }
}
