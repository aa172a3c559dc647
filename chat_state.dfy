/**
 * The last conversation id, held in memory and mirrored to a one-line state
 * file (`FileChatStateGateway`). Writes go to a temporary file first, which
 * is then moved over the state file, so the state file holds either the old
 * text or the complete new id.
 */
module ChatState {
  import opened Wrappers
  import PyStr
  import Decimal

  /**
   * The two files the gateway touches: the state file and its `.tmp`
   * sibling. `None` means the file does not exist.
   */
  class StateFiles {
    var canonical: Option<string>
    var temp: Option<string>

    constructor(canonical: Option<string>)
      ensures this.canonical == canonical && temp == None
    {
      this.canonical := canonical;
      temp := None;
    }
  }

  /**
   * How a persist attempt ends: both steps succeed, writing the temporary
   * file raises `OSError`, or moving it over the state file raises `OSError`.
   * Either error is logged and swallowed. `write_text` opens the `.tmp` file
   * with truncation, so a failed write has either not opened it (`truncated`
   * false: the file is as it was) or left the first `written` characters of
   * the new text in it, possibly none.
   */
  datatype WriteOutcome = Persisted | TempWriteFails(truncated: bool, written: nat) | ReplaceFails

  /** The `.tmp` file after a `write_text` of `text` that did not complete. */
  function TempAfterFailedWrite(truncated: bool, written: nat, oldTemp: Option<string>, text: string): (r: Option<string>)
    ensures !truncated ==> r == oldTemp
    ensures truncated ==> r.Some? && |r.value| <= |text| && PyStr.StartsWith(text, r.value)
  {
    if truncated then Some(text[..if written < |text| then written else |text|]) else oldTemp
  }

  /** The state file after persisting `chatId`: the new text only when both steps succeed. */
  function CanonicalAfter(outcome: WriteOutcome, oldCanonical: Option<string>, chatId: int): Option<string> {
    if outcome == Persisted then Some(Decimal.IntToString(chatId)) else oldCanonical
  }

  /**
   * The `.tmp` file after persisting `chatId`: gone after the move, holding
   * the full text when the move fails, and what the failed write left.
   */
  function TempAfter(outcome: WriteOutcome, oldTemp: Option<string>, chatId: int): Option<string> {
    match outcome
    case Persisted => None
    case TempWriteFails(truncated, written) => TempAfterFailedWrite(truncated, written, oldTemp, Decimal.IntToString(chatId))
    case ReplaceFails => Some(Decimal.IntToString(chatId))
  }

  /**
   * The id read back at start-up. A missing file, a read error, blank
   * content and content that `int()` rejects all leave the id unknown.
   */
  function RestoredChatId(content: Option<string>, readFails: bool): Option<int> {
    if content.None? || readFails then None
    else
      var raw := PyStr.Strip(content.value);
      if raw == [] then None else Decimal.ParseInt(raw)
  }

  /** The blank-file check is subsumed by `int()`: restoring is parsing the whole file. */
  lemma {:induction false} RestoreIsParse(content: Option<string>, readFails: bool)
    ensures RestoredChatId(content, readFails) ==
      (if content.None? || readFails then None else Decimal.ParseInt(content.value))
  {
    if content.Some? {
      Decimal.ParseIntIgnoresSurroundingSpace(content.value);
    }
  }

  /** What `str(chat_id)` writes is exactly what start-up reads back, for every id. */
  lemma {:induction false} PersistedIdRestores(n: int)
    ensures RestoredChatId(Some(Decimal.IntToString(n)), false) == Some(n)
  {
    RestoreIsParse(Some(Decimal.IntToString(n)), false);
    Decimal.ParseIntRoundTrip(n);
  }

  /** The state files the repository's tests set up: a stored id, garbage, an empty file, no file. */
  lemma {:induction false} RestoreExamples()
    ensures RestoredChatId(Some("12345"), false) == Some(12345)
    ensures RestoredChatId(Some("invalid"), false) == None
    ensures RestoredChatId(Some(""), false) == None
    ensures RestoredChatId(None, false) == None
  {
    Decimal.ParseIntExample();
    Decimal.ParseIntRejectsExamples();
    RestoreIsParse(Some("12345"), false);
    RestoreIsParse(Some("invalid"), false);
  }

  class FileChatStateGateway {
    const files: StateFiles
    var lastChatId: Option<int>

    /** Construction loads the id from the state file, as `__init__` does. */
    constructor(files: StateFiles, readFails: bool)
      ensures this.files == files
      ensures lastChatId == RestoredChatId(files.canonical, readFails)
    {
      this.files := files;
      lastChatId := None;
      new;
      LoadLastChatIdFromFile(readFails);
    }

    /** `_load_last_chat_id_from_file`: a failed or empty read leaves the id as it was. */
    method LoadLastChatIdFromFile(readFails: bool)
      modifies this
      ensures RestoredChatId(files.canonical, readFails).Some? ==> lastChatId == RestoredChatId(files.canonical, readFails)
      ensures RestoredChatId(files.canonical, readFails).None? ==> lastChatId == old(lastChatId)
    {
      if files.canonical.None? {
        return;
      }
      if readFails {
        return;
      }
      var raw := PyStr.Strip(files.canonical.value);
      if raw == [] {
        return;
      }
      var parsed := Decimal.ParseInt(raw);
      if parsed.None? {
        return;
      }
      lastChatId := parsed;
    }

    method GetLastChatId() returns (r: Option<int>)
      ensures r == lastChatId
    {
      r := lastChatId;
    }

    /**
     * `set_last_chat_id`: the id in memory always changes; the state file
     * follows only when both file steps succeed.
     */
    method SetLastChatId(chatId: int, outcome: WriteOutcome)
      modifies this, files
      ensures lastChatId == Some(chatId)
      ensures files.canonical == CanonicalAfter(outcome, old(files.canonical), chatId)
      ensures files.temp == TempAfter(outcome, old(files.temp), chatId)
    {
      lastChatId := Some(chatId);
      PersistLastChatId(chatId, outcome);
    }

    /** `_persist_last_chat_id`: write the `.tmp` file, then move it over the state file. */
    method PersistLastChatId(chatId: int, outcome: WriteOutcome)
      modifies files
      ensures files.canonical == CanonicalAfter(outcome, old(files.canonical), chatId)
      ensures files.temp == TempAfter(outcome, old(files.temp), chatId)
    {
      var text := Decimal.IntToString(chatId);
      if outcome.TempWriteFails? {
        files.temp := TempAfterFailedWrite(outcome.truncated, outcome.written, files.temp, text);
        return;
      }
      files.temp := Some(text);
      if outcome == ReplaceFails {
        return;
      }
      files.canonical := files.temp;
      files.temp := None;
    }
  }

  /**
   * A captured id is recovered by the next process: after a successful
   * persist, a gateway built on the same files starts with that id; after a
   * failed one it starts with whatever the state file held before.
   */
  method CaptureThenRestart(files: StateFiles, chatId: int, outcome: WriteOutcome, readFails: bool)
      returns (before: Option<int>, after: Option<int>)
    modifies files
    ensures before == Some(chatId)
    ensures outcome == Persisted && !readFails ==> after == Some(chatId)
    ensures outcome != Persisted ==> after == RestoredChatId(old(files.canonical), readFails)
  {
    var gateway := new FileChatStateGateway(files, false);
    gateway.SetLastChatId(chatId, outcome);
    before := gateway.GetLastChatId();
    var restarted := new FileChatStateGateway(files, readFails);
    after := restarted.GetLastChatId();
    if outcome == Persisted && !readFails {
      PersistedIdRestores(chatId);
    }
  }
}
