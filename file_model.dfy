/** The application's file model: the path and size of the file that is open, with the
    signals it emits on opening, closing and failure. Whether the file exists and its size
    are what the file system reports, passed in. */
module FileModel {
  import opened Common

  /** The signals the model emits. */
  datatype FileEvent = FileOpened(path: string) | FileClosed | FileError(message: string)

  /** The model's state: an empty path means no file is open. */
  datatype FileState = FileState(path: string, size: int64)

  const CLOSED: FileState := FileState("", 0)

  const MISSING_FILE: string := "File does not exist"

  /** No size is kept without a file. */
  predicate Consistent(s: FileState)
  {
    s.path == "" ==> s.size == 0
  }

  /** openFile: a missing file is reported and changes nothing; an existing one replaces
      whatever was open (without closing it first) and is announced. */
  function Open(s: FileState, filePath: string, fileExists: bool, size: int64): (FileState, seq<FileEvent>)
  {
    if !fileExists then (s, [FileError(MISSING_FILE)])
    else (FileState(filePath, size), [FileOpened(filePath)])
  }

  /** closeFile: with a file open, forgets it and announces the close; otherwise does
      nothing. */
  function Close(s: FileState): (FileState, seq<FileEvent>)
  {
    if s.path != "" then (CLOSED, [FileClosed]) else (s, [])
  }

  /** Both operations keep the state consistent, given that an empty path never names an
      existing file. */
  lemma OperationsKeepConsistent(s: FileState, filePath: string, fileExists: bool, size: int64)
    requires Consistent(s)
    requires filePath == "" ==> !fileExists
    ensures Consistent(Open(s, filePath, fileExists, size).0)
    ensures Consistent(Close(s).0)
  {
  }

  /** After a close nothing is open, and a second close emits nothing and changes nothing. */
  lemma CloseIsIdempotent(s: FileState)
    requires Consistent(s)
    ensures Close(s).0 == CLOSED
    ensures Close(Close(s).0) == (CLOSED, [])
    ensures |Close(s).1| == (if s.path == "" then 0 else 1)
  {
  }

  /** Opening the same file again leaves the state as one open did (announcing it again),
      and a failed open is invisible to the close that follows it. */
  lemma OpenTwice(s: FileState, filePath: string, fileExists: bool, size: int64)
    ensures var (once, events) := Open(s, filePath, fileExists, size);
      && Open(once, filePath, fileExists, size) == (once, events)
      && (!fileExists ==> Close(once) == Close(s))
  {
  }

  /** Opening an existing file and closing it again leaves nothing open, whatever was open
      before, and the close is the only close signal: opening over an open file does not
      close it. */
  lemma OpenThenClose(s: FileState, filePath: string, size: int64)
    requires filePath != ""
    ensures var (afterOpen, openEvents) := Open(s, filePath, true, size);
      && FileClosed !in openEvents
      && Close(afterOpen) == (CLOSED, [FileClosed])
  {
  }

  class Model {
    var currentFilePath: string
    var fileSize: int64

    function State(): FileState
      reads this
    {
      FileState(currentFilePath, fileSize)
    }

    /** A new model has no file and size 0. */
    constructor ()
      ensures State() == CLOSED
    {
      currentFilePath := "";
      fileSize := 0;
    }

    /** openFile; `fileExists` and `size` are what the file system reports for the path. */
    method OpenFile(filePath: string, fileExists: bool, size: int64) returns (ok: bool, events: seq<FileEvent>)
      modifies this
      ensures (State(), events) == Open(old(State()), filePath, fileExists, size)
      ensures ok <==> fileExists
    {
      if !fileExists {
        return false, [FileError(MISSING_FILE)];
      }
      currentFilePath := filePath;
      fileSize := size;
      return true, [FileOpened(filePath)];
    }

    /** closeFile. */
    method CloseFile() returns (events: seq<FileEvent>)
      modifies this
      ensures (State(), events) == Close(old(State()))
    {
      events := [];
      if currentFilePath != "" {
        currentFilePath := "";
        fileSize := 0;
        events := [FileClosed];
      }
    }

    /** getCurrentFilePath and getFileSize. */
    method GetCurrentFile() returns (path: string, size: int64)
      ensures FileState(path, size) == State()
    {
      path, size := currentFilePath, fileSize;
    }
  }
}
