/**
 * services/systemInstructionService.js: the system instruction read from a
 * file, cached on the file's modification time, with a built-in default when
 * the file is missing or unreadable, and its injection as a leading `user` turn.
 *
 * The file system is a value: the file (present or not, with its content and
 * mtime) and flags for the I/O errors the `fs` calls can raise.
 */
module SystemInstructions {
  import opened Common

  /** `path.join(__dirname, '../config/system-instructions.md')`, relative to the services directory. */
  const INSTRUCTION_PATH: string := "../config/system-instructions.md"

  const DEFAULT_INSTRUCTION: string :=
    "あなたはSlack Botとして動作するAIアシスタントです。ユーザーの質問や要求に対して、親切で正確な回答を提供してください。日本語で回答し、必要に応じてコードブロックやリストを使用して見やすく整理してください。"

  /** The text put in front of the instruction when it becomes a conversation turn. */
  const INSTRUCTION_HEADER: string := "システムインストラクション:\n"

  datatype FileData = FileData(content: string, mtime: int)

  /**
   * The instruction file. `data` is None when the file does not exist
   * (`ENOENT` from `fs.access`); `statFails`, `readFails` and `writeFails`
   * stand for any other error of `fs.access`/`fs.stat`, `fs.readFile` and
   * `fs.mkdir`/`fs.writeFile`.
   */
  datatype InstructionFile = InstructionFile(data: Option<FileData>, statFails: bool, readFails: bool, writeFails: bool)

  /** The two cache fields; `null` is None. */
  datatype Cache = Cache(cachedInstruction: Option<string>, lastModified: Option<int>)

  /** What one `loadSystemInstruction` returns and leaves, and whether it called `readFile`. */
  datatype LoadOutcome = LoadOutcome(text: string, cache: Cache, didRead: bool)

  /** JavaScript truthiness of `this.cachedInstruction`: null and "" are false. */
  predicate Truthy(s: Option<string>) {
    s.Some? && s.value != ""
  }

  /** The file exists and its stat succeeds. */
  predicate Statable(file: InstructionFile) {
    file.data.Some? && !file.statFails
  }

  /** The cache is served: not forced, a truthy cached text, and the same mtime as the last read. */
  predicate CacheHit(cache: Cache, forceReload: bool, file: InstructionFile) {
    Statable(file) && !forceReload && Truthy(cache.cachedInstruction) &&
    cache.lastModified == Some(file.data.value.mtime)
  }

  /** `loadSystemInstruction(forceReload)` on a cache state and a file. */
  function Load(cache: Cache, forceReload: bool, file: InstructionFile): (o: LoadOutcome)
    ensures CacheHit(cache, forceReload, file) ==> o == LoadOutcome(cache.cachedInstruction.value, cache, false)
    ensures !Statable(file) ==> o == LoadOutcome(DEFAULT_INSTRUCTION, cache, false)
    ensures o.didRead <==> Statable(file) && !CacheHit(cache, forceReload, file)
    ensures o.didRead && file.readFails ==> o.text == DEFAULT_INSTRUCTION && o.cache == cache
    ensures o.didRead && !file.readFails ==>
              o.text == file.data.value.content &&
              o.cache == Cache(Some(file.data.value.content), Some(file.data.value.mtime))
  {
    if file.data.None? || file.statFails then LoadOutcome(DEFAULT_INSTRUCTION, cache, false)
    else
      var current := file.data.value.mtime;
      if !forceReload && Truthy(cache.cachedInstruction) && cache.lastModified == Some(current) then
        LoadOutcome(cache.cachedInstruction.value, cache, false)
      else if file.readFails then LoadOutcome(DEFAULT_INSTRUCTION, cache, true)
      else LoadOutcome(file.data.value.content, Cache(Some(file.data.value.content), Some(current)), true)
  }

  /** The file after a successful `updateSystemInstruction(text)` at time `now`. */
  function Written(file: InstructionFile, text: string, now: int): (f: InstructionFile)
    ensures f.data == Some(FileData(text, now))
    ensures f.statFails == file.statFails && f.readFails == file.readFails && f.writeFails == file.writeFails
  {
    file.(data := Some(FileData(text, now)))
  }

  /** The `getSystemInstructionInfo()` record; the ISO formatting of the time is left out. */
  datatype InstructionInfo = InstructionInfo(path: string, cached: bool, lastModified: Option<int>, hasFile: bool)

  /** `formatForGeminiAPI(instruction)`: a `user` turn holding the header and then the instruction. */
  function FormatForGeminiApi(instruction: string): (c: Content)
    ensures c.role == USER
    ensures |c.text| == |INSTRUCTION_HEADER| + |instruction|
    ensures c.text[..|INSTRUCTION_HEADER|] == INSTRUCTION_HEADER && c.text[|INSTRUCTION_HEADER|..] == instruction
  {
    Content(USER, INSTRUCTION_HEADER + instruction)
  }

  /** `integrateWithConversation(history, instruction)`: the instruction turn, then the history unchanged. */
  function IntegrateWithConversation(history: seq<Content>, instruction: string): (r: seq<Content>)
    ensures |r| == |history| + 1
    ensures r[0] == FormatForGeminiApi(instruction)
    ensures r[1..] == history
  {
    [FormatForGeminiApi(instruction)] + history
  }

  class SystemInstructionService {
    const systemInstructionPath: string := INSTRUCTION_PATH
    var cachedInstruction: Option<string>
    var lastModified: Option<int>
    /** How many times `readFile` has been called. */
    ghost var readCount: nat

    constructor ()
      ensures cachedInstruction == None && lastModified == None && readCount == 0
    {
      cachedInstruction := None;
      lastModified := None;
      readCount := 0;
    }

    function CacheState(): Cache
      reads this
    {
      Cache(cachedInstruction, lastModified)
    }

    /** `loadSystemInstruction(forceReload)`. Errors never escape: they yield the default. */
    method LoadSystemInstruction(file: InstructionFile, forceReload: bool := false) returns (text: string)
      modifies this
      ensures var o := Load(old(CacheState()), forceReload, file);
              text == o.text && CacheState() == o.cache &&
              readCount == old(readCount) + (if o.didRead then 1 else 0)
    {
      if file.data.None? {
        // ENOENT from fs.access
        return DEFAULT_INSTRUCTION;
      }
      if file.statFails {
        return DEFAULT_INSTRUCTION;
      }
      var currentModified := file.data.value.mtime;
      if !forceReload && cachedInstruction.Some? && cachedInstruction.value != "" && lastModified == Some(currentModified) {
        return cachedInstruction.value;
      }
      readCount := readCount + 1;
      if file.readFails {
        return DEFAULT_INSTRUCTION;
      }
      var content := file.data.value.content;
      cachedInstruction := Some(content);
      lastModified := Some(currentModified);
      return content;
    }

    /** `getDefaultSystemInstruction()`. */
    function GetDefaultSystemInstruction(): (s: string)
      ensures s == DEFAULT_INSTRUCTION && |s| > 0
    {
      DEFAULT_INSTRUCTION
    }

    /** `getSystemInstructionInfo()`: reads only. A `lastModified` of 0 is falsy and reported as null. */
    function GetSystemInstructionInfo(): (info: InstructionInfo)
      reads this
      ensures info.path == systemInstructionPath && info.hasFile
      ensures info.cached <==> cachedInstruction.Some? && cachedInstruction.value != ""
      ensures info.lastModified.Some? <==> lastModified.Some? && lastModified.value != 0
      ensures info.lastModified.Some? ==> info.lastModified == lastModified
    {
      InstructionInfo(systemInstructionPath, Truthy(cachedInstruction),
                      if lastModified.Some? && lastModified.value != 0 then lastModified else None, true)
    }

    /**
     * `updateSystemInstruction(newInstruction)` at time `now`: on success the
     * file holds the text and the cache is cleared; on a write failure the
     * result is false and neither the file nor the cache changes.
     */
    method UpdateSystemInstruction(newInstruction: string, file: InstructionFile, now: int)
      returns (ok: bool, file': InstructionFile)
      modifies this
      ensures readCount == old(readCount)
      ensures ok == !file.writeFails
      ensures ok ==> file' == Written(file, newInstruction, now) && CacheState() == Cache(None, None)
      ensures !ok ==> file' == file && CacheState() == old(CacheState())
    {
      if file.writeFails {
        return false, file;
      }
      file' := Written(file, newInstruction, now);
      cachedInstruction := None;
      lastModified := None;
      ok := true;
    }

    /** `resetSystemInstruction()`: an update with the default text. */
    method ResetSystemInstruction(file: InstructionFile, now: int) returns (ok: bool, file': InstructionFile)
      modifies this
      ensures readCount == old(readCount)
      ensures ok == !file.writeFails
      ensures ok ==> file' == Written(file, DEFAULT_INSTRUCTION, now) && CacheState() == Cache(None, None)
      ensures !ok ==> file' == file && CacheState() == old(CacheState())
    {
      var defaultInstruction := GetDefaultSystemInstruction();
      ok, file' := UpdateSystemInstruction(defaultInstruction, file, now);
    }
  }

  predicate Readable(file: InstructionFile) {
    Statable(file) && !file.readFails
  }

  /**
   * Two loads of an unchanged, readable file with non-empty content perform at
   * most one read between them, and the second returns what the first did.
   */
  lemma TwoLoadsReadOnce(cache: Cache, file: InstructionFile)
    requires Readable(file) && file.data.value.content != ""
    ensures var o1 := Load(cache, false, file);
            var o2 := Load(o1.cache, false, file);
            !o2.didRead && o2.text == o1.text && o2.cache == o1.cache
  {
  }

  /**
   * With empty content the cache is never served once the file has been read:
   * the truthiness check fails, so every further load reads again.
   */
  lemma EmptyContentAlwaysRereads(cache: Cache, file: InstructionFile)
    requires Readable(file) && file.data.value.content == "" && !CacheHit(cache, false, file)
    ensures var o1 := Load(cache, false, file);
            o1.didRead && Load(o1.cache, false, file).didRead
  {
  }

  /** A file whose mtime differs from the cached one is read again and its new content returned. */
  lemma ChangedFileIsReloaded(cache: Cache, file: InstructionFile)
    requires Readable(file) && cache.lastModified != Some(file.data.value.mtime)
    ensures Load(cache, false, file) ==
            LoadOutcome(file.data.value.content, Cache(Some(file.data.value.content), Some(file.data.value.mtime)), true)
  {
  }

  /** After a successful update the next load, forced or not, reads the file and returns the new text. */
  lemma UpdateThenLoadReturnsNewText(file: InstructionFile, text: string, now: int, forceReload: bool)
    requires !file.statFails && !file.readFails
    ensures Load(Cache(None, None), forceReload, Written(file, text, now)).text == text
    ensures Load(Cache(None, None), forceReload, Written(file, text, now)).didRead
  {
  }

  /** A missing or unreadable file yields the default and leaves the cache as it was. */
  lemma FailedLoadKeepsCache(cache: Cache, forceReload: bool, file: InstructionFile)
    requires !Statable(file) || (file.readFails && !CacheHit(cache, forceReload, file))
    ensures Load(cache, forceReload, file).text == DEFAULT_INSTRUCTION
    ensures Load(cache, forceReload, file).cache == cache
  {
  }
}
