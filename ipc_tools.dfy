/** The tools the agent may call. `sendMessage` and `scheduleTask` each
    drop one JSON record into a directory the host watches, filling absent
    arguments with defaults from the tool context; `remember` only answers. */
module IpcTools {
  import opened Wrappers
  import opened JsValues

  /** What `main` installs before the agent runs; every field is absent until then. */
  datatype ToolContext = ToolContext(chatJid: Option<string>, groupFolder: Option<string>, isMain: Option<bool>)

  const EmptyContext: ToolContext := ToolContext(None, None, None)

  const MessagesDir: string := "/workspace/ipc/messages"
  const TasksDir: string := "/workspace/ipc/tasks"
  const DefaultContextMode: string := "group"
  const DefaultGroupFolder: string := "main"

  /** A record as it is serialised; an absent `chatJid` is left out of the JSON. */
  datatype IpcRecord =
    | MessageRecord(chatJid: Option<string>, text: string, timestamp: string)
    | ScheduleTaskRecord(
        prompt: string, scheduleType: string, scheduleValue: string,
        contextMode: string, groupFolder: string, chatJid: Option<string>, timestamp: string)

  /** The record's `type` field. */
  function TypeTag(r: IpcRecord): (tag: string)
    ensures r.MessageRecord? <==> tag == "message"
    ensures r.ScheduleTaskRecord? <==> tag == "schedule_task"
  {
    match r
    case MessageRecord(_, _, _) => "message"
    case ScheduleTaskRecord(_, _, _, _, _, _, _) => "schedule_task"
  }

  /** The directory a record is written to. */
  function Directory(r: IpcRecord): (dir: string)
    ensures r.MessageRecord? <==> dir == MessagesDir
    ensures r.ScheduleTaskRecord? <==> dir == TasksDir
  {
    if r.MessageRecord? then MessagesDir else TasksDir
  }

  /** Records of one kind, and only of that kind, share a directory; so the
      directory a file lies in tells its `type` tag. */
  lemma DirectoryTellsType(r1: IpcRecord, r2: IpcRecord)
    ensures Directory(r1) == Directory(r2) <==> TypeTag(r1) == TypeTag(r2)
  {
    assert MessagesDir != TasksDir by {
      assert MessagesDir[15] != TasksDir[15];
    }
  }

  datatype IpcFile = IpcFile(directory: string, fileName: string, record: IpcRecord)
  /** How a tool call ends: the file it wrote and its reply, or the error
      it rejects with. */
  datatype ToolCall = Queued(file: IpcFile, reply: string) | Rejected(error: string)

  /** `${Date.now()}-${suffix}.json`; the suffix stands for the random part. */
  function IpcFileName(now: nat, suffix: string): (name: string)
    ensures |name| > 5 && name[|name| - 5..] == ".json"
  {
    NatToString(now) + "-" + suffix + ".json"
  }

  /** The clock reading a file was named with can be read back from the
      digits its name starts with. */
  lemma IpcFileNameTime(now: nat, suffix: string)
    ensures AllDigits(LeadingDigits(IpcFileName(now, suffix)))
    ensures DigitsValue(LeadingDigits(IpcFileName(now, suffix))) == now
  {
    var digits := NatToString(now);
    var rest := "-" + suffix + ".json";
    assert IpcFileName(now, suffix) == digits + rest;
    LeadingDigitsBeforeDash(digits, rest);
    NatToStringValue(now);
  }

  lemma {:induction false} LeadingDigitsBeforeDash(digits: string, rest: string)
    requires AllDigits(digits) && rest != [] && rest[0] == '-'
    ensures LeadingDigits(digits + rest) == digits
  {
    if digits == [] {
      assert (digits + rest)[0] == '-';
    } else {
      assert (digits + rest)[1..] == digits[1..] + rest;
      LeadingDigitsBeforeDash(digits[1..], rest);
    }
  }

  /** The file `sendMessage` writes: a "message" record for the current chat. */
  function MessageFile(context: ToolContext, text: string, now: nat, suffix: string, timestamp: string)
    : (f: IpcFile)
    ensures f.directory == Directory(f.record) == MessagesDir
    ensures TypeTag(f.record) == "message"
    ensures f.record.chatJid == context.chatJid && f.record.text == text
    ensures f.fileName == IpcFileName(now, suffix)
  {
    IpcFile(MessagesDir, IpcFileName(now, suffix), MessageRecord(context.chatJid, text, timestamp))
  }

  /** The file `scheduleTask` writes: a "schedule_task" record whose context
      mode defaults to "group" and whose group is the target group, else the
      context's group, else "main"; neither is ever empty. */
  function TaskFile(
    context: ToolContext, prompt: string, scheduleType: string, scheduleValue: string,
    contextMode: Option<string>, targetGroup: Option<string>, now: nat, suffix: string, timestamp: string)
    : (f: IpcFile)
    ensures f.directory == Directory(f.record) == TasksDir
    ensures TypeTag(f.record) == "schedule_task"
    ensures f.record.ScheduleTaskRecord?
    ensures f.record.prompt == prompt && f.record.scheduleType == scheduleType
    ensures f.record.scheduleValue == scheduleValue && f.record.chatJid == context.chatJid
    ensures f.record.contextMode != "" && f.record.groupFolder != ""
    ensures Truthy(contextMode) ==> f.record.contextMode == contextMode.value
    ensures !Truthy(contextMode) ==> f.record.contextMode == DefaultContextMode
    ensures Truthy(targetGroup) ==> f.record.groupFolder == targetGroup.value
    ensures !Truthy(targetGroup) && Truthy(context.groupFolder) ==> f.record.groupFolder == context.groupFolder.value
    ensures !Truthy(targetGroup) && !Truthy(context.groupFolder) ==> f.record.groupFolder == DefaultGroupFolder
    ensures f.fileName == IpcFileName(now, suffix)
  {
    var group := Or(targetGroup, Or(context.groupFolder, DefaultGroupFolder));
    var record := ScheduleTaskRecord(
      prompt, scheduleType, scheduleValue, Or(contextMode, DefaultContextMode), group, context.chatJid, timestamp);
    IpcFile(TasksDir, IpcFileName(now, suffix), record)
  }

  /** `sendMessage`: `write` is how creating the directory and writing the
      file went. When both succeed the record is queued and the reply names
      its file; when either throws, the tool call rejects with that error. */
  function SendMessageTool(
    context: ToolContext, text: string, now: nat, suffix: string, timestamp: string, write: Outcome<string>)
    : (r: ToolCall)
    ensures r.Queued? <==> write.Pass?
    ensures r.Queued? ==> r.file == MessageFile(context, text, now, suffix, timestamp)
    ensures r.Queued? ==> r.reply == "Message queued: " + r.file.fileName
    ensures write.Fail? ==> r == Rejected(write.error)
  {
    match write
    case Fail(e) => Rejected(e)
    case Pass =>
      var file := MessageFile(context, text, now, suffix, timestamp);
      Queued(file, "Message queued: " + file.fileName)
  }

  /** `scheduleTask`: the task record is queued and the reply names its
      file, or a failing directory creation or write rejects the call. */
  function ScheduleTaskTool(
    context: ToolContext, prompt: string, scheduleType: string, scheduleValue: string,
    contextMode: Option<string>, targetGroup: Option<string>, now: nat, suffix: string, timestamp: string,
    write: Outcome<string>)
    : (r: ToolCall)
    ensures r.Queued? <==> write.Pass?
    ensures r.Queued? ==>
      r.file == TaskFile(context, prompt, scheduleType, scheduleValue, contextMode, targetGroup, now, suffix, timestamp)
    ensures r.Queued? ==> r.reply == "Task scheduled: " + r.file.fileName
    ensures write.Fail? ==> r == Rejected(write.error)
  {
    match write
    case Fail(e) => Rejected(e)
    case Pass =>
      var file := TaskFile(context, prompt, scheduleType, scheduleValue, contextMode, targetGroup, now, suffix, timestamp);
      Queued(file, "Task scheduled: " + file.fileName)
  }

  /** Before `main` installs a context, a scheduled task goes to the "main"
      group and a message names no chat. */
  lemma EmptyContextDefaults(prompt: string, scheduleType: string, scheduleValue: string, text: string, now: nat, suffix: string, timestamp: string)
    ensures TaskFile(EmptyContext, prompt, scheduleType, scheduleValue, None, None, now, suffix, timestamp).record
      == ScheduleTaskRecord(prompt, scheduleType, scheduleValue, DefaultContextMode, DefaultGroupFolder, None, timestamp)
    ensures MessageFile(EmptyContext, text, now, suffix, timestamp).record.chatJid.None?
  {
  }
}
