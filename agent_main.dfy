/** The agent runner's `main`: read one request, gather context from
    memory, run the model once, and report exactly one framed result. The
    request decoding, the memory store and the model call are parameters. */
module AgentMain {
  import opened Wrappers
  import opened OutputFraming
  import opened Memory
  import opened IpcTools

  /** `ContainerInput`, as decoded from stdin. */
  datatype ContainerInput = ContainerInput(
    prompt: string,
    sessionId: Option<string>,
    groupFolder: string,
    chatJid: string,
    isMain: bool,
    isScheduledTask: Option<bool>)

  const ScheduledTaskPreamble: string :=
    "[SCHEDULED TASK - You are running automatically, not in response to a user message. Use tools to communicate if needed.]"

  /** The user prompt handed to the model: a scheduled task's prompt is
      preceded by the preamble and a blank line; any other prompt is unchanged. */
  function PreparePrompt(input: ContainerInput): (r: string)
    ensures |r| >= |input.prompt| && r[|r| - |input.prompt|..] == input.prompt
    ensures input.isScheduledTask == Some(true) <==> r != input.prompt
    ensures input.isScheduledTask == Some(true) ==>
      r == ScheduledTaskPreamble + "\n\n" + input.prompt
  {
    if input.isScheduledTask == Some(true) then
      var r := ScheduledTaskPreamble + "\n\n" + input.prompt;
      assert |r| > |input.prompt|;
      r
    else input.prompt
  }

  /** The memories the run retrieves: this group's best five when the store
      opened and answered, none otherwise. */
  const SearchLimit: nat := 5

  function Retrieved(init: InitOutcome, search: SearchOutcome, group: string): (r: seq<MemoryEntry>)
    ensures |r| <= SearchLimit
    ensures forall k :: 0 <= k < |r| ==> r[k].metadata.group == group
    ensures init.ConnectFailed? || !init.tableReady || search.SearchFailed? ==> r == []
  {
    if init.Connected? && init.tableReady && search.Ranked? then InGroup(search.entries, group, SearchLimit) else []
  }

  /** The two messages sent to the model. */
  datatype ChatRequest = ChatRequest(system: string, user: string)

  /** What the model call returns, or the message of the error it throws. */
  datatype Generation = Generated(text: string) | GenerationFailed(message: string)

  /** Everything a run does that is visible outside it: the result written,
      the exit code, the request made (if any), the tool context installed
      and the entry handed to the memory store (if any). */
  datatype Run = Run(
    output: ContainerOutput,
    exitCode: int,
    request: Option<ChatRequest>,
    toolContext: ToolContext,
    stored: Option<MemoryEntry>)

  const ParseFailurePrefix: string := "Failed to parse input: "

  /** The one result a run reports: it depends on the decoded request and the
      model call only, never on the memory store. */
  function ResultFor(stdin: Result<ContainerInput, string>, generation: Generation): (r: ContainerOutput)
    ensures r.status == Status.Success <==> stdin.Success? && generation.Generated?
    ensures r.status == Status.Success ==> r.result == Some(generation.text) && r.error.None?
    ensures r.status == Status.Error ==> r.result.None? && r.error.Some?
    ensures stdin.Failure? ==> r.error == Some(ParseFailurePrefix + stdin.error)
    ensures stdin.Success? && generation.GenerationFailed? ==> r.error == Some(generation.message)
    ensures r.newSessionId.None?
  {
    match stdin
    case Failure(message) => ContainerOutput(Error, None, None, Some(ParseFailurePrefix + message))
    case Success(_) =>
      match generation
      case Generated(text) => ContainerOutput(Status.Success, Some(text), None, None)
      case GenerationFailed(message) => ContainerOutput(Error, None, None, Some(message))
  }

  /** `main`. A request that cannot be decoded ends the run with an error
      result and exit code 1 before anything else happens. Otherwise memory
      failures only thin the context: the model is asked once, with the
      knowledge and retrieved memories as the system message and the prepared
      prompt as the user message, and its answer or error is reported. */
  method RunAgent(
    stdin: Result<ContainerInput, string>, init: InitOutcome, knowledge: KnowledgeFile,
    search: SearchOutcome, generation: Generation, embedSucceeds: bool, storeSucceeds: bool, timestamp: string)
    returns (run: Run)
    ensures run.output == ResultFor(stdin, generation)
    ensures run.exitCode == (if run.output.status == Status.Success then 0 else 1)
    ensures stdin.Failure? ==> run.request.None? && run.toolContext == EmptyContext && run.stored.None?
    ensures stdin.Success? ==>
      run.request == Some(ChatRequest(
        MemoryContext(ReadKnowledge(knowledge), Retrieved(init, search, stdin.value.groupFolder)),
        PreparePrompt(stdin.value)))
    ensures stdin.Success? ==>
      run.toolContext == ToolContext(Some(stdin.value.chatJid), Some(stdin.value.groupFolder), Some(stdin.value.isMain))
    ensures run.stored.Some? <==>
      stdin.Success? && generation.Generated? && init.Connected? && init.tableReady && embedSucceeds && storeSucceeds
    ensures run.stored.Some? ==>
      run.stored.value == MemoryEntry(PreparePrompt(stdin.value), Metadata("conversation", stdin.value.groupFolder, timestamp))
  {
    if stdin.Failure? {
      run := Run(ResultFor(stdin, generation), 1, None, EmptyContext, None);
      return;
    }
    var input := stdin.value;
    var memory := new HybridMemory(input.groupFolder);
    memory.Initialize(init);
    var knowledgeText := ReadKnowledge(knowledge);
    var memories := memory.SearchInGroup(input.prompt, SearchLimit, search);
    var context := MemoryContext(knowledgeText, memories);
    var prompt := PreparePrompt(input);
    var toolContext := ToolContext(Some(input.chatJid), Some(input.groupFolder), Some(input.isMain));
    var request := ChatRequest(context, prompt);
    match generation {
      case Generated(text) =>
        var stored := memory.Add(prompt, Metadata("conversation", input.groupFolder, timestamp), false, embedSucceeds, storeSucceeds);
        run := Run(ContainerOutput(Status.Success, Some(text), None, None), 0, Some(request), toolContext, stored);
      case GenerationFailed(message) =>
        run := Run(ContainerOutput(Error, None, None, Some(message)), 1, Some(request), toolContext, None);
    }
  }

  /** With the memory store unreachable or failing, the system message is
      the knowledge document and the memories heading alone. */
  lemma MemoryOutageContext(knowledge: KnowledgeFile, init: InitOutcome, search: SearchOutcome, group: string)
    requires init.ConnectFailed? || !init.tableReady || search.SearchFailed?
    ensures MemoryContext(ReadKnowledge(knowledge), Retrieved(init, search, group))
      == KnowledgeFront(ReadKnowledge(knowledge)) + MemoriesHeading
  {
    ContextWithoutMemories(ReadKnowledge(knowledge));
  }

  /** What is stored after a run is found by the next run of the same group
      when the store ranks it first: the retrieved memories are scoped to the
      group the entry was stored for. */
  lemma StoredEntryRetrievable(entry: MemoryEntry, init: InitOutcome, ranked: seq<MemoryEntry>, group: string)
    requires init.Connected? && init.tableReady
    requires entry.metadata.group == group
    requires |ranked| > 0 && ranked[0] == entry
    ensures Retrieved(init, Ranked(ranked), group) != [] && Retrieved(init, Ranked(ranked), group)[0] == entry
  {
  }
}
