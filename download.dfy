/** The download worker of `src/modman/lib.py` (`DownloadThread.run`): a HEAD
    request, then up to three streamed attempts, each written to the target
    file and hashed, until the SHA-512 digest matches.

    The transport is abstract: `head` is the HEAD response, `stream(i)` the list
    of chunks the `i`-th GET streams, and `digest` the hex SHA-512 of a byte
    string. The thread runs synchronously. */
module Download {
  import opened Wrappers
  import opened Http
  import opened Models

  /** The HEAD response: its status and its `Content-Length` header, if any. */
  datatype Head = Head(status: int, contentLength: Option<int>)

  datatype DownloadError =
    | HeadStatus(status: int)   // httpx.HTTPStatusError from the HEAD request
    | NoContentLength           // KeyError('Content-Length')
    | HashMismatch              // RuntimeError("Failed to download ... after 3 attempts (hash mismatch).")

  /** The number of streamed attempts `run` makes at most. */
  const MAX_ATTEMPTS: nat := 3

  /** The bytes of a list of chunks, in order. */
  function Flatten(chunks: seq<seq<bv8>>): seq<bv8> {
    if |chunks| == 0 then [] else Flatten(chunks[..|chunks| - 1]) + chunks[|chunks| - 1]
  }

  /** `sum(len(chunk) for chunk in chunks)`. */
  function ChunkBytes(chunks: seq<seq<bv8>>): nat {
    if |chunks| == 0 then 0 else ChunkBytes(chunks[..|chunks| - 1]) + |chunks[|chunks| - 1]|
  }

  /** The bytes written (and hashed) are as many as the chunk lengths add up to. */
  lemma {:induction false} FlattenLength(chunks: seq<seq<bv8>>)
    ensures |Flatten(chunks)| == ChunkBytes(chunks)
  {
    if |chunks| > 0 {
      FlattenLength(chunks[..|chunks| - 1]);
    }
  }

  /** Whether attempt `i` ends the loop: without hashes the first attempt is
      accepted unverified, with hashes an attempt ends it when its digest
      equals the expected SHA-512. */
  predicate Accepted(hashes: Option<Hashes>, stream: nat -> seq<seq<bv8>>, digest: seq<bv8> -> string, i: nat) {
    hashes.None? || digest(Flatten(stream(i))) == hashes.value.sha512
  }

  /** The first attempt from `i` on (below `MAX_ATTEMPTS`) that ends the loop. */
  function StopFrom(hashes: Option<Hashes>, stream: nat -> seq<seq<bv8>>, digest: seq<bv8> -> string, i: nat): Option<nat>
    requires i <= MAX_ATTEMPTS
    decreases MAX_ATTEMPTS - i
  {
    if i == MAX_ATTEMPTS then None
    else if Accepted(hashes, stream, digest, i) then Some(i)
    else StopFrom(hashes, stream, digest, i + 1)
  }

  /** The loop stops at the first accepted attempt, and runs all three attempts
      only when none is accepted. */
  lemma {:induction false} StopFromFirst(hashes: Option<Hashes>, stream: nat -> seq<seq<bv8>>, digest: seq<bv8> -> string, i: nat)
    requires i <= MAX_ATTEMPTS
    ensures var r := StopFrom(hashes, stream, digest, i);
      (r.Some? ==> i <= r.value < MAX_ATTEMPTS && Accepted(hashes, stream, digest, r.value)
                   && forall j :: i <= j < r.value ==> !Accepted(hashes, stream, digest, j))
      && (r.None? <==> forall j :: i <= j < MAX_ATTEMPTS ==> !Accepted(hashes, stream, digest, j))
    decreases MAX_ATTEMPTS - i
  {
    if i < MAX_ATTEMPTS && !Accepted(hashes, stream, digest, i) {
      StopFromFirst(hashes, stream, digest, i + 1);
    }
  }

  /** How many GET streams `run` opens once the HEAD request has passed. */
  function Attempts(hashes: Option<Hashes>, stream: nat -> seq<seq<bv8>>, digest: seq<bv8> -> string): (n: nat)
    ensures 1 <= n <= MAX_ATTEMPTS
  {
    match StopFrom(hashes, stream, digest, 0)
    case Some(i) => i + 1
    case None => MAX_ATTEMPTS
  }

  /** The bytes streamed over the first `n` attempts together. */
  function StreamedBytes(stream: nat -> seq<seq<bv8>>, n: nat): nat {
    if n == 0 then 0 else StreamedBytes(stream, n - 1) + ChunkBytes(stream(n - 1))
  }

  /** What `run` raises, or `Success` when it returns. */
  function RunResult(head: Head, hashes: Option<Hashes>, stream: nat -> seq<seq<bv8>>, digest: seq<bv8> -> string)
    : Result<(), DownloadError>
  {
    if !IsSuccess(head.status) then Failure(HeadStatus(head.status))
    else if head.contentLength.None? then Failure(NoContentLength)
    else if StopFrom(hashes, stream, digest, 0).Some? then Success(())
    else Failure(HashMismatch)
  }

  /** `run` returns exactly when the HEAD request succeeds with a length and
      either there are no hashes or one of the three attempts matches; it
      raises the integrity error exactly when all three attempts mismatch. */
  lemma RunResultCases(head: Head, hashes: Option<Hashes>, stream: nat -> seq<seq<bv8>>, digest: seq<bv8> -> string)
    ensures RunResult(head, hashes, stream, digest).Success? <==>
      IsSuccess(head.status) && head.contentLength.Some?
      && (hashes.None? || exists j :: 0 <= j < MAX_ATTEMPTS && digest(Flatten(stream(j))) == hashes.value.sha512)
    ensures RunResult(head, hashes, stream, digest) == Failure(HashMismatch) <==>
      IsSuccess(head.status) && head.contentLength.Some? && hashes.Some?
      && forall j :: 0 <= j < MAX_ATTEMPTS ==> digest(Flatten(stream(j))) != hashes.value.sha512
  {
    StopFromFirst(hashes, stream, digest, 0);
    if hashes.Some? && StopFrom(hashes, stream, digest, 0).Some? {
      var j := StopFrom(hashes, stream, digest, 0).value;
      assert digest(Flatten(stream(j))) == hashes.value.sha512;
    }
    if hashes.None? {
      assert Accepted(hashes, stream, digest, 0);
    }
  }

  /** Without hashes exactly one attempt is made and accepted unverified. */
  lemma NoHashesOneAttempt(stream: nat -> seq<seq<bv8>>, digest: seq<bv8> -> string)
    ensures Attempts(None, stream, digest) == 1
    ensures StopFrom(None, stream, digest, 0) == Some(0)
  {
  }

  /** With hashes the loop stops at the first attempt whose digest matches: two
      mismatches then a match make exactly three attempts, and `run` returns. */
  lemma MatchOnThirdAttempt(head: Head, h: Hashes, stream: nat -> seq<seq<bv8>>, digest: seq<bv8> -> string)
    requires IsSuccess(head.status) && head.contentLength.Some?
    requires digest(Flatten(stream(0))) != h.sha512 && digest(Flatten(stream(1))) != h.sha512
    requires digest(Flatten(stream(2))) == h.sha512
    ensures Attempts(Some(h), stream, digest) == 3 && RunResult(head, Some(h), stream, digest) == Success(())
  {
    assert StopFrom(Some(h), stream, digest, 2) == Some(2);
    assert StopFrom(Some(h), stream, digest, 1) == Some(2);
  }

  /** `rich.progress` task: its total and how far it has advanced. */
  datatype Task = Task(total: int, completed: int)

  /** The part of `rich.progress.Progress` the worker uses. */
  class Progress {
    var tasks: seq<Task>

    constructor ()
      ensures tasks == []
    {
      tasks := [];
    }

    /** `add_task(description, total=total)`; the description is not modelled. */
    method AddTask(total: int) returns (id: nat)
      modifies this
      ensures id == |old(tasks)| && tasks == old(tasks) + [Task(total, 0)]
    {
      id := |tasks|;
      tasks := tasks + [Task(total, 0)];
    }

    /** `update(task_id, advance=n)`. */
    method Advance(id: nat, n: int)
      requires id < |tasks|
      modifies this
      ensures tasks == old(tasks)[id := Task(old(tasks)[id].total, old(tasks)[id].completed + n)]
    {
      tasks := tasks[id := Task(tasks[id].total, tasks[id].completed + n)];
    }
  }

  /** The download target on disk. */
  class TargetFile {
    var present: bool
    var content: seq<bv8>

    constructor (present: bool, content: seq<bv8>)
      ensures this.present == present && this.content == content
    {
      this.present := present;
      this.content := content;
    }

    /** `touch()`: create the file if missing; its content is kept. */
    method Touch()
      modifies this
      ensures present && content == old(content)
    {
      present := true;
    }

    /** `open(path, "wb")`: create and truncate. */
    method OpenForWriting()
      modifies this
      ensures present && content == []
    {
      present := true;
      content := [];
    }

    /** `f.write(chunk)`. */
    method Write(chunk: seq<bv8>)
      modifies this
      ensures present == old(present) && content == old(content) + chunk
    {
      content := content + chunk;
    }
  }

  class DownloadThread {
    const url: string
    const target: TargetFile
    const hashes: Option<Hashes>
    const progress: Progress?
    var success: bool
    /** The GET streams opened so far, as the transport sees them. */
    var streams: nat

    /** `DownloadThread(url, target, hashes=..., progress=...)`. */
    constructor (url: string, target: TargetFile, hashes: Option<Hashes>, progress: Progress?)
      ensures this.url == url && this.target == target && this.hashes == hashes && this.progress == progress
      ensures !success && streams == 0
    {
      this.url := url;
      this.target := target;
      this.hashes := hashes;
      this.progress := progress;
      success := false;
      streams := 0;
    }

    /** One attempt: open a stream, touch and truncate the target, then write
        and hash every chunk, advancing the progress task by each chunk's
        length. Returns the bytes the fresh hasher was fed. */
    method Attempt(chunks: seq<seq<bv8>>, taskId: nat) returns (hashed: seq<bv8>)
      requires progress != null ==> taskId < |progress.tasks|
      modifies this, target, progress
      ensures hashed == Flatten(chunks)
      ensures target.present && target.content == Flatten(chunks)
      ensures streams == old(streams) + 1 && success == old(success)
      ensures progress != null ==>
        progress.tasks == old(progress.tasks)[taskId := Task(old(progress.tasks)[taskId].total,
                                                              old(progress.tasks)[taskId].completed + ChunkBytes(chunks))]
    {
      hashed := [];
      streams := streams + 1;
      target.Touch();
      target.OpenForWriting();
      for j := 0 to |chunks|
        invariant hashed == Flatten(chunks[..j])
        invariant target.present && target.content == hashed
        invariant progress != null ==> |progress.tasks| == |old(progress.tasks)|
        invariant progress != null ==>
          progress.tasks == old(progress.tasks)[taskId := Task(old(progress.tasks)[taskId].total,
                                                                old(progress.tasks)[taskId].completed + ChunkBytes(chunks[..j]))]
        invariant streams == old(streams) + 1 && success == old(success)
      {
        assert chunks[..j + 1][..j] == chunks[..j];
        hashed := hashed + chunks[j];
        target.Write(chunks[j]);
        if progress != null {
          progress.Advance(taskId, |chunks[j]|);
        }
      }
      assert chunks[..|chunks|] == chunks;
    }

    /** `run()`. The flag `success` is left as it was. */
    method Run(head: Head, stream: nat -> seq<seq<bv8>>, digest: seq<bv8> -> string) returns (r: Result<(), DownloadError>)
      modifies this, target, progress
      ensures r == RunResult(head, hashes, stream, digest)
      ensures success == old(success)
      ensures r.Failure? && !r.error.HashMismatch? ==>
        streams == old(streams) && target.present == old(target.present) && target.content == old(target.content)
        && (progress != null ==> progress.tasks == old(progress.tasks))
      ensures r.Success? || r.error.HashMismatch? ==>
        var n := Attempts(hashes, stream, digest);
        streams == old(streams) + n && target.present && target.content == Flatten(stream(n - 1))
        && (progress != null ==> progress.tasks == old(progress.tasks) + [Task(head.contentLength.value, StreamedBytes(stream, n))])
    {
      if !IsSuccess(head.status) {
        return Failure(HeadStatus(head.status));
      }
      if head.contentLength.None? {
        return Failure(NoContentLength);
      }
      var total := head.contentLength.value;
      var taskId: nat := 0;
      if progress != null {
        taskId := progress.AddTask(total);
      }
      var verified := Retry(stream, digest, taskId);
      if !verified {
        return Failure(HashMismatch);
      }
      r := Success(());
    }

    /** The `for i in range(3)` loop with its `else`: true when it ended by
        `break`, false when all three attempts mismatched. */
    method Retry(stream: nat -> seq<seq<bv8>>, digest: seq<bv8> -> string, taskId: nat) returns (verified: bool)
      requires progress != null ==> taskId < |progress.tasks|
      modifies this, target, progress
      ensures verified <==> StopFrom(hashes, stream, digest, 0).Some?
      ensures var n := Attempts(hashes, stream, digest);
        streams == old(streams) + n && success == old(success)
        && target.present && target.content == Flatten(stream(n - 1))
        && (progress != null ==>
              progress.tasks == old(progress.tasks)[taskId := Task(old(progress.tasks)[taskId].total,
                                                                    old(progress.tasks)[taskId].completed + StreamedBytes(stream, n))])
    {
      var i: nat := 0;
      verified := false;
      while i < MAX_ATTEMPTS && !verified
        invariant i <= MAX_ATTEMPTS
        invariant verified ==> i >= 1 && StopFrom(hashes, stream, digest, 0) == Some(i - 1)
        invariant !verified ==> StopFrom(hashes, stream, digest, 0) == StopFrom(hashes, stream, digest, i)
        invariant streams == old(streams) + i && success == old(success)
        invariant i >= 1 ==> target.present && target.content == Flatten(stream(i - 1))
        invariant progress != null ==> |progress.tasks| == |old(progress.tasks)|
        invariant progress != null ==>
          progress.tasks == old(progress.tasks)[taskId := Task(old(progress.tasks)[taskId].total,
                                                                old(progress.tasks)[taskId].completed + StreamedBytes(stream, i))]
        decreases MAX_ATTEMPTS - i
      {
        var hashed := Attempt(stream(i), taskId);
        if hashes.None? {
          verified := true;
        } else if digest(hashed) != hashes.value.sha512 {
        } else {
          verified := true;
        }
        i := i + 1;
      }
    }

    /** `run()` as evidently intended: the flag records whether it returned. */
    method RunAndRecord(head: Head, stream: nat -> seq<seq<bv8>>, digest: seq<bv8> -> string) returns (r: Result<(), DownloadError>)
      modifies this, target, progress
      ensures r == RunResult(head, hashes, stream, digest)
      ensures success <==> r.Success?
    {
      r := Run(head, stream, digest);
      success := r.Success?;
    }
  }

  function OneChunk(attempt: nat): seq<seq<bv8>> { [[1, 2, 3]] }

  function NoDigest(bytes: seq<bv8>): string { "" }

  /** A download without hashes whose HEAD and single stream succeed returns
      normally, yet the worker's flag still reads false afterwards. */
  method SuccessNeverFlagged() returns (r: Result<(), DownloadError>, flag: bool)
    ensures r.Success? && !flag
  {
    var target := new TargetFile(false, []);
    var t := new DownloadThread("https://cdn.modrinth.com/file.jar", target, None, null);
    r := t.Run(Head(200, Some(3)), OneChunk, NoDigest);
    flag := t.success;
  }

  /** The corrected worker raises its flag on the same download. */
  method SuccessFlagged() returns (r: Result<(), DownloadError>, flag: bool)
    ensures r.Success? && flag
  {
    var target := new TargetFile(false, []);
    var t := new DownloadThread("https://cdn.modrinth.com/file.jar", target, None, null);
    r := t.RunAndRecord(Head(200, Some(3)), OneChunk, NoDigest);
    flag := t.success;
  }
}
