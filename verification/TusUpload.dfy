/** The resumable upload of one archive file: a client that sends chunks and asks where to resume after a
    failure, and a server that follows the tus resumable upload protocol 1.0.0 (Core Protocol, PATCH and HEAD). */
module TusUpload {
  import opened Common

  // The server may store only part of a chunk, lose any acknowledgement, or refuse any request.

  newtype Byte = x: int | 0 <= x < 256
  type Bytes = seq<Byte>
  type Digest = string

  const CHUNK_BYTES: nat := 6 * 1024 * 1024
  const ATTEMPTS := 4
  const TRANSIENT_STATUS: set<int> := {408, 425, 429, 500, 502, 503, 504}

  /** What the client learns of a request: nothing, or a status and its Upload-Offset header. */
  datatype Reply = ConnectionLost | Response(status: int, uploadOffset: Option<int>)

  /** What a GET of the object brings. */
  datatype Download = Missing | Refused | Stream(chunks: seq<Bytes>)

  /** One request with its reply. A PATCH has the offset and bytes the client sent and the length the server held. */
  datatype Exchange =
    | Got(download: Download)
    | Posted(created: bool)
    | Patched(sent: int, chunk: Bytes, held: nat, reply: Reply)
    | Asked(reply: Reply)

  function Concat(chunks: seq<Bytes>): Bytes {
    if chunks == [] then [] else Concat(chunks[..|chunks| - 1]) + chunks[|chunks| - 1]
  }

  ghost predicate Injective(hash: Bytes -> Digest) {
    forall a, b :: hash(a) == hash(b) ==> a == b
  }

  /** The protocol's PATCH: bytes are appended only at the offset the server holds, in order, possibly
      not all of them; an acknowledgement states the new length. */
  predicate PatchFollows(before: Bytes, sent: int, chunk: Bytes, after: Bytes, r: Reply) {
    && (sent != |before| ==> after == before && (r.Response? ==> r.status == 409))
    && (sent == |before| ==> before <= after <= before + chunk)
    && (r.Response? && r.status == 204 ==> r.uploadOffset == Some(|after|))
  }

  /** One object path with its tus endpoint. A finished upload becomes the object unless one exists. */
  class TusServer {
    var stored: Option<Bytes>
    var uploading: bool
    var uploadLength: nat
    var content: Bytes
    ghost var log: seq<Exchange>

    predicate Valid()
      reads this
    {
      |content| <= uploadLength
    }

    constructor (existing: Option<Bytes>)
      ensures Valid() && stored == existing && !uploading && log == []
    {
      stored, uploading, uploadLength, content, log := existing, false, 0, [], [];
    }

    method Finish()
      modifies `stored
      ensures stored == if |content| == uploadLength && old(stored).None? then Some(content) else old(stored)
    {
      if |content| == uploadLength && stored.None? { stored := Some(content); }
    }

    /** POST: a new, empty upload of the announced length, unless refused. */
    method Create(length: nat) returns (created: bool)
      modifies `stored, `uploading, `uploadLength, `content, `log
      ensures log == old(log) + [Posted(created)]
      ensures created ==> Valid() && uploading && uploadLength == length && content == []
      ensures created ==> stored == if length == 0 && old(stored).None? then Some([]) else old(stored)
      ensures !created ==> unchanged(`stored, `uploading, `uploadLength, `content)
    {
      created := *;
      if created {
        uploading, uploadLength, content := true, length, [];
        Finish();
      }
      log := log + [Posted(created)];
    }

    method PatchAt(offset: int, chunk: Bytes) returns (r: Reply)
      requires Valid() && offset + |chunk| <= uploadLength
      modifies `content, `stored, `log
      ensures Valid() && PatchFollows(old(content), offset, chunk, content, r)
      ensures log == old(log) + [Patched(offset, chunk, |old(content)|, r)]
      ensures stored == if |content| == uploadLength && old(stored).None? then Some(content) else old(stored)
    {
      ghost var held := |content|;
      if offset != |content| {
        r := Response(409, None);
      } else {
        var kept: nat :| kept <= |chunk|;
        content := content + chunk[..kept];
        r := *;
        if r.Response? && r.status == 204 { r := Response(204, Some(|content|)); }
      }
      log := log + [Patched(offset, chunk, held, r)];
      Finish();
    }

    /** HEAD: where to resume, unless refused. */
    method Head() returns (r: Reply)
      modifies `log
      ensures log == old(log) + [Asked(r)]
      ensures r.Response? && r.status == 200 ==> r.uploadOffset == Some(|content|)
    {
      r := *;
      if r.Response? && r.status == 200 { r := Response(200, Some(|content|)); }
      log := log + [Asked(r)];
    }

    /** GET: the object in chunks of any size, unless refused or broken off with an error. */
    method Get() returns (d: Download)
      modifies `log
      ensures log == old(log) + [Got(d)]
      ensures d.Missing? ==> stored.None?
      ensures d.Stream? ==> stored == Some(Concat(d.chunks))
    {
      d := Refused;
      var answered: bool := *;
      if answered && stored.None? {
        d := Missing;
      } else if answered {
        var cut: nat :| cut <= |stored.value|;
        ConcatTwo(stored.value[..cut], stored.value[cut..]);
        d := Stream([stored.value[..cut], stored.value[cut..]]);
        assert Concat(d.chunks) == stored.value;
      }
      log := log + [Got(d)];
    }
  }

  lemma ConcatTwo(a: Bytes, b: Bytes)
    ensures Concat([a, b]) == a + b
  {
    assert [a][..0] == [] && Concat([a]) == a;
    assert [a, b][..1] == [a];
  }

  datatype UploadError =
    | ObjectRefused
    | TooLarge
    | ObjectDiffers
    | CreateRefused
    | OffsetQueryFailed
    | AcknowledgementDiffers
    | PatchFailed(reply: Reply)
    | ObjectMissing

  /** verify(): digests the stream chunk by chunk and compares size and digest at the end. */
  method Verify(d: Download, expectedBytes: nat, sha256: Digest, hash: Bytes -> Digest)
    returns (r: Result<bool, UploadError>)
    ensures r == Ok(true) <==> d.Stream? && |Concat(d.chunks)| == expectedBytes && hash(Concat(d.chunks)) == sha256
    ensures r == Ok(false) <==> d.Missing?
    ensures r.Err? ==>
              match r.error
              case ObjectRefused => d.Refused?
              case TooLarge => d.Stream? && |Concat(d.chunks)| > expectedBytes
              case ObjectDiffers =>
                && d.Stream? && |Concat(d.chunks)| <= expectedBytes
                && !(|Concat(d.chunks)| == expectedBytes && hash(Concat(d.chunks)) == sha256)
              case _ => false
  {
    if d.Missing? { return Ok(false); }
    if d.Refused? { return Err(ObjectRefused); }
    var digested: Bytes, copied := [], 0;
    for i := 0 to |d.chunks|
      invariant digested == Concat(d.chunks[..i]) && copied == |digested| <= expectedBytes
    {
      assert d.chunks[..i + 1][..i] == d.chunks[..i];
      copied := copied + |d.chunks[i]|;
      if copied > expectedBytes {
        ConcatGrows(d.chunks, i + 1);
        return Err(TooLarge);
      }
      digested := digested + d.chunks[i];
    }
    assert d.chunks[..|d.chunks|] == d.chunks;
    if copied != expectedBytes || hash(digested) != sha256 { return Err(ObjectDiffers); }
    return Ok(true);
  }

  lemma {:induction false} ConcatGrows(chunks: seq<Bytes>, i: nat)
    requires i <= |chunks|
    ensures |Concat(chunks[..i])| <= |Concat(chunks)|
  {
    if i == |chunks| {
      assert chunks[..i] == chunks;
    } else {
      ConcatGrows(chunks[..|chunks| - 1], i);
      assert chunks[..|chunks| - 1][..i] == chunks[..i];
    }
  }

  /** Of the expected size and digest. */
  predicate Same(held: Bytes, file: Bytes, hash: Bytes -> Digest) {
    |held| == |file| && hash(held) == hash(file)
  }

  // ---------------------------------------------------------------- what a run's exchanges say

  predicate Acknowledges(r: Reply) { r.Response? && r.status == 204 }

  /** A PATCH carries the file's bytes from the length the server holds: a chunk of 6 MiB, or what is left. */
  predicate InStep(file: Bytes, x: Exchange) {
    x.Patched? ==>
      && 0 <= x.sent == x.held < |file|
      && |x.chunk| == (if |file| - x.sent < 6_291_456 then |file| - x.sent else 6_291_456)
      && x.sent + |x.chunk| <= |file| && x.chunk == file[x.sent..x.sent + |x.chunk|]
  }

  predicate AllInStep(file: Bytes, log: seq<Exchange>) {
    forall i | 0 <= i < |log| :: InStep(file, log[i])
  }

  /** Nothing was refused: not a GET, a POST or a HEAD; a PATCH was acknowledged whole, lost, or failed with a
      status that is a reason to retry. */
  predicate Granted(x: Exchange) {
    match x
    case Got(d) => !d.Refused?
    case Posted(created) => created
    case Patched(sent, chunk, _, r) =>
      r.Response? ==> if r.status == 204 then r.uploadOffset == Some(sent + |chunk|)
                      else r.status in {408, 425, 429, 500, 502, 503, 504}
    case Asked(r) => r.Response? && r.status == 200 && r.uploadOffset.Some?
  }

  /** How many PATCHes went unacknowledged since the last acknowledged one. */
  function Streak(log: seq<Exchange>): nat {
    if log == [] then 0
    else
      var before, last := Streak(log[..|log| - 1]), log[|log| - 1];
      if !last.Patched? then before else if Acknowledges(last.reply) then 0 else before + 1
  }

  /** Nothing was refused and no four PATCHes in a row went unacknowledged. */
  predicate Smooth(log: seq<Exchange>) {
    log != [] ==> Smooth(log[..|log| - 1]) && Granted(log[|log| - 1]) && Streak(log) < 4
  }

  lemma OneMore(log: seq<Exchange>, x: Exchange)
    ensures Smooth(log + [x]) <==> Smooth(log) && Granted(x) && Streak(log + [x]) < 4
    ensures Streak(log + [x])
            == if !x.Patched? then Streak(log) else if Acknowledges(x.reply) then 0 else Streak(log) + 1
    ensures (log + [x])[|log|] == x
  {
    assert (log + [x])[..|log|] == log;
  }

  /** What follows an acknowledged PATCH is judged on its own. */
  lemma {:induction false} Joined(a: seq<Exchange>, b: seq<Exchange>)
    requires Streak(a) == 0 && Smooth(a)
    ensures Streak(a + b) == Streak(b) && (Smooth(a + b) <==> Smooth(b))
    decreases |b|
  {
    if b == [] {
      assert a + b == a;
    } else {
      var init, last := b[..|b| - 1], b[|b| - 1];
      Joined(a, init);
      OneMore(a + init, last);
      assert a + b == (a + init) + [last];
    }
  }

  /** What each error means: which reply ended the run. Before anything was sent an object that is not the file
      was there, or a reply refused, or four PATCHes in a row went unacknowledged. That an uploaded object is
      missing or differs is never the reason. */
  predicate Explains(e: UploadError, run: seq<Exchange>, file: Bytes, hash: Bytes -> Digest)
    requires run != []
  {
    var last := run[|run| - 1];
    match e
    case ObjectRefused => last == Got(Refused)
    case TooLarge => run == [last] && last.Got? && last.download.Stream? && |Concat(last.download.chunks)| > |file|
    case ObjectDiffers =>
      && run == [last] && last.Got? && last.download.Stream? && |Concat(last.download.chunks)| <= |file|
      && !Same(Concat(last.download.chunks), file, hash)
    case CreateRefused => run == [Got(Missing), Posted(false)]
    case ObjectMissing => false
    case _ => ExplainsChunk(e, run)
  }

  predicate ExplainsChunk(e: UploadError, run: seq<Exchange>)
    requires run != []
  {
    var last := run[|run| - 1];
    match e
    case OffsetQueryFailed => last.Asked? && !Granted(last)
    case AcknowledgementDiffers => last.Patched? && Acknowledges(last.reply) && !Granted(last)
    case PatchFailed(reply) =>
      && last.Patched? && last.reply == reply && !Acknowledges(reply)
      && (!Granted(last) || Streak(run) == 4)
    case _ => false
  }

  /** What explains the later exchanges explains them all. */
  lemma Further(file: Bytes, a: seq<Exchange>, b: seq<Exchange>)
    requires AllInStep(file, a) && AllInStep(file, b)
    ensures AllInStep(file, a + b)
    ensures b != [] ==> (a + b)[|a + b| - 1] == b[|b| - 1]
  {
  }

  /** _tus_offset(): the length the server holds, or an error. */
  method QueryOffset(server: TusServer) returns (r: Result<int, UploadError>, ghost asked: Exchange)
    modifies server`log
    ensures server.log == old(server.log) + [asked] && asked.Asked?
    ensures r == if Granted(asked) then Ok(|server.content|) else Err(OffsetQueryFailed)
  {
    var response := server.Head();
    asked := Asked(response);
    if response.ConnectionLost? || response.status != 200 || response.uploadOffset.None? {
      return Err(OffsetQueryFailed), asked;
    }
    return Ok(response.uploadOffset.value), asked;
  }

  /** What holds between two PATCHes: the client's offset is the server's length, inside the file. */
  predicate Together(file: Bytes, offset: int, content: Bytes, uploadLength: nat, stored: Option<Bytes>) {
    && 0 <= offset == |content| <= |file| == uploadLength && content <= file
    && stored == if offset == |file| then Some(file) else None
  }

  lemma Resumed(file: Bytes, offset: nat, chunk: Bytes, before: Bytes, after: Bytes)
    requires offset == |before| && before <= file && offset + |chunk| <= |file|
    requires chunk == file[offset..offset + |chunk|] && before <= after <= before + chunk
    ensures after <= file && |after| <= |file|
    ensures |after| == |file| ==> after == file
  {
    assert before + chunk == file[..offset + |chunk|];
  }

  /** The chunk that is sent at an offset. */
  function NextChunk(file: Bytes, offset: int): (chunk: Bytes)
    requires 0 <= offset < |file|
    ensures |chunk| == if |file| - offset < 6_291_456 then |file| - offset else 6_291_456
    ensures offset + |chunk| <= |file| && chunk == file[offset..offset + |chunk|]
  {
    file[offset..if offset + CHUNK_BYTES < |file| then offset + CHUNK_BYTES else |file|]
  }

  /** One PATCH of a chunk of the file at the length the server holds. */
  method PatchOnce(file: Bytes, offset: int, chunk: Bytes, server: TusServer) returns (patched: Reply)
    requires 0 <= offset < |file| && Together(file, offset, server.content, server.uploadLength, server.stored)
    requires chunk == NextChunk(file, offset)
    modifies server`content, server`stored, server`log
    ensures server.log == old(server.log) + [Patched(offset, chunk, offset, patched)]
    ensures InStep(file, Patched(offset, chunk, offset, patched))
    ensures Together(file, |server.content|, server.content, server.uploadLength, server.stored)
    ensures offset <= |server.content|
    ensures Acknowledges(patched) ==> patched.uploadOffset == Some(|server.content|)
  {
    ghost var held := server.content;
    patched := server.PatchAt(offset, chunk);
    Resumed(file, offset, chunk, held, server.content);
  }

  /** One more exchange goes on the log. */
  lemma Logged(file: Bytes, log: seq<Exchange>, sent: seq<Exchange>, x: Exchange)
    requires AllInStep(file, sent) && InStep(file, x)
    ensures (log + sent) + [x] == log + (sent + [x]) && AllInStep(file, sent + [x])
    ensures (sent + [x])[|sent|] == x
    ensures Smooth(sent + [x]) <==> Smooth(sent) && Granted(x) && Streak(sent + [x]) < 4
    ensures Streak(sent + [x])
            == if !x.Patched? then Streak(sent) else if Acknowledges(x.reply) then 0 else Streak(sent) + 1
  {
    OneMore(sent, x);
  }

  /** How one turn of the retry loop ends. */
  datatype Turn = Advances(next: int) | Raises(error: UploadError) | Retries(offset: int)

  /** The server's offset is asked for, and the loop goes on from there. */
  method AskAgain(file: Bytes, server: TusServer, ghost log: seq<Exchange>, ghost sent: seq<Exchange>)
    returns (turn: Turn, ghost now: seq<Exchange>)
    requires Together(file, |server.content|, server.content, server.uploadLength, server.stored)
    requires server.log == log + sent && AllInStep(file, sent) && Smooth(sent) && Streak(sent) < ATTEMPTS
    modifies server`log
    ensures server.log == log + now && now != [] && AllInStep(file, now) && Streak(now) == Streak(sent)
    ensures match turn
            case Advances(next) => next == |server.content| == |file| && Smooth(now)
            case Retries(offset) => offset == |server.content| < |file| && Smooth(now)
            case Raises(error) => !Smooth(now) && ExplainsChunk(error, now)
  {
    var query, asked := QueryOffset(server);
    Logged(file, log, sent, asked);
    now := sent + [asked];
    if query.Err? { return Raises(query.error), now; }
    turn := if query.value >= |file| then Advances(query.value) else Retries(query.value);
  }

  /** The PATCH of a turn, on top of what the loop exchanged before. */
  method PatchLogged(file: Bytes, offset: int, chunk: Bytes, attempt: int, server: TusServer, ghost log: seq<Exchange>,
                     ghost sent: seq<Exchange>) returns (patched: Reply, ghost now: seq<Exchange>)
    requires 0 <= offset < |file| && Together(file, offset, server.content, server.uploadLength, server.stored)
    requires chunk == NextChunk(file, offset) && 1 <= attempt <= 4
    requires Smooth(sent) && Streak(sent) == attempt - 1 && server.log == log + sent && AllInStep(file, sent)
    modifies server`content, server`stored, server`log
    ensures server.log == log + now && now != [] && AllInStep(file, now)
    ensures now[|now| - 1] == Patched(offset, chunk, offset, patched)
    ensures Streak(now) == if Acknowledges(patched) then 0 else attempt
    ensures Smooth(now) <==> Granted(Patched(offset, chunk, offset, patched)) && (Acknowledges(patched) || attempt < 4)
    ensures Together(file, |server.content|, server.content, server.uploadLength, server.stored)
    ensures offset <= |server.content|
    ensures Acknowledges(patched) ==> patched.uploadOffset == Some(|server.content|)
  {
    patched := PatchOnce(file, offset, chunk, server);
    Logged(file, log, sent, Patched(offset, chunk, offset, patched));
    now := sent + [Patched(offset, chunk, offset, patched)];
  }

  /** One turn: the chunk is sent, and unless it is acknowledged the server's offset is asked for. `sent` is what
      the loop exchanged before, on top of `log`. */
  method Attempt(file: Bytes, offset: int, attempt: int, server: TusServer, ghost log: seq<Exchange>,
                 ghost sent: seq<Exchange>) returns (turn: Turn, ghost now: seq<Exchange>)
    requires 0 <= offset < |file| && Together(file, offset, server.content, server.uploadLength, server.stored)
    requires 1 <= attempt <= ATTEMPTS && Smooth(sent) && Streak(sent) == attempt - 1
    requires server.log == log + sent && AllInStep(file, sent)
    modifies server`content, server`stored, server`log
    ensures server.log == log + now && now != [] && AllInStep(file, now) && server.content <= file
    ensures turn.Advances? ==>
              && offset < turn.next && Together(file, turn.next, server.content, server.uploadLength, server.stored)
              && Smooth(now) && (turn.next < |file| ==> Streak(now) == 0)
    ensures turn.Retries? ==>
              && attempt < ATTEMPTS && offset <= turn.offset < |file|
              && Together(file, turn.offset, server.content, server.uploadLength, server.stored)
              && Smooth(now) && Streak(now) == attempt
    ensures turn.Raises? ==> !Smooth(now) && ExplainsChunk(turn.error, now)
  {
    var chunk := NextChunk(file, offset);
    var patched;
    patched, now := PatchLogged(file, offset, chunk, attempt, server, log, sent);
    if patched.ConnectionLost? {
      if attempt == ATTEMPTS { return Raises(PatchFailed(patched)), now; }
    } else if patched.status == 204 {
      var next := patched.uploadOffset;
      if next.None? || next.value != offset + |chunk| { return Raises(AcknowledgementDiffers), now; }
      return Advances(next.value), now;
    } else if patched.status !in TRANSIENT_STATUS || attempt == ATTEMPTS {
      return Raises(PatchFailed(patched)), now;
    }
    turn, now := AskAgain(file, server, log, now);
  }

  /** The retry loop: up to four attempts to get one chunk acknowledged, asking for the server's offset
      after each failure. It returns an offset beyond the one it started from exactly if its exchanges were
      smooth, and otherwise the error they explain; it never runs out of attempts without one or the other. */
  method SendChunk(file: Bytes, start: int, server: TusServer)
    returns (r: Result<int, UploadError>, ghost sent: seq<Exchange>)
    requires start < |file| && Together(file, start, server.content, server.uploadLength, server.stored)
    modifies server`content, server`stored, server`log
    ensures r.Ok? ==> start < r.value && Together(file, r.value, server.content, server.uploadLength, server.stored)
    ensures server.content <= file
    ensures server.log == old(server.log) + sent && sent != [] && AllInStep(file, sent)
    ensures r.Ok? <==> Smooth(sent)
    ensures r.Ok? && r.value < |file| ==> Streak(sent) == 0
    ensures r.Err? ==> ExplainsChunk(r.error, sent)
  {
    var offset, attempt := start, 1;
    r, sent := Err(OffsetQueryFailed), [];
    while attempt <= ATTEMPTS
      invariant 1 <= attempt <= ATTEMPTS
      invariant start <= offset < |file| && Together(file, offset, server.content, server.uploadLength, server.stored)
      invariant server.log == old(server.log) + sent && AllInStep(file, sent)
      invariant Smooth(sent) && Streak(sent) == attempt - 1
    {
      var turn, now := Attempt(file, offset, attempt, server, old(server.log), sent);
      sent := now;
      match turn
      case Advances(next) => return Ok(next), sent;
      case Raises(error) => return Err(error), sent;
      case Retries(held) => offset, attempt := held, attempt + 1;
    }
    assert false;
  }

  /** The loop over the chunks. */
  method SendAll(file: Bytes, server: TusServer)
    returns (r: Result<(), UploadError>, ghost sent: seq<Exchange>)
    requires Together(file, 0, server.content, server.uploadLength, server.stored)
    modifies server`content, server`stored, server`log
    ensures r.Ok? ==> server.content == file && server.stored == Some(file)
    ensures server.content <= file
    ensures server.log == old(server.log) + sent && AllInStep(file, sent)
    ensures r.Ok? <==> Smooth(sent)
    ensures r.Err? ==> sent != [] && ExplainsChunk(r.error, sent)
  {
    var offset: int := 0;
    sent := [];
    while offset < |file|
      invariant Together(file, offset, server.content, server.uploadLength, server.stored)
      invariant server.log == old(server.log) + sent && AllInStep(file, sent)
      invariant Smooth(sent) && (offset < |file| ==> Streak(sent) == 0)
      decreases |file| - offset
    {
      var chunk, more := SendChunk(file, offset, server);
      Joined(sent, more);
      Further(file, sent, more);
      sent := sent + more;
      if chunk.Err? { return Err(chunk.error), sent; }
      offset := chunk.value;
    }
    return Ok(()), sent;
  }

  /** The check of a file the server has stored: it fails only if the GET is refused. */
  method CheckStored(file: Bytes, hash: Bytes -> Digest, server: TusServer)
    returns (r: Result<(), UploadError>, ghost d: Download)
    requires server.stored == Some(file)
    modifies server`log
    ensures server.log == old(server.log) + [Got(d)]
    ensures r == if d.Refused? then Err(ObjectRefused) else Ok(())
  {
    var final := server.Get();
    d := final;
    var verified := Verify(final, |file|, hash(file), hash);
    if verified.Err? { return Err(verified.error), d; }
    if !verified.value { return Err(ObjectMissing), d; }
    return Ok(()), d;
  }

  /** The upload proper: the chunks, and the final check. */
  method SendAndCheck(file: Bytes, hash: Bytes -> Digest, server: TusServer)
    returns (r: Result<(), UploadError>, ghost run: seq<Exchange>)
    requires Together(file, 0, server.content, server.uploadLength, server.stored)
    modifies server`content, server`stored, server`log
    ensures server.log == old(server.log) + run && run != [] && AllInStep(file, run) && server.content <= file
    ensures r.Ok? ==> server.content == file && server.stored == Some(file)
    ensures r.Ok? <==> Smooth(run)
    ensures r.Err? ==> (r.error == ObjectRefused && run[|run| - 1] == Got(Refused)) || ExplainsChunk(r.error, run)
  {
    var sent, more := SendAll(file, server);
    run := more;
    if sent.Err? { return Err(sent.error), run; }
    ghost var d;
    r, d := CheckStored(file, hash, server);
    Logged(file, old(server.log), run, Got(d));
    run := run + [Got(d)];
  }

  /** upload(): on success the object is the file; whatever happens, the server never holds anything but a prefix
      of the file, and every PATCH carried the file's bytes from the length the server then held. It succeeds if
      and only if an object already there is the file's by size and digest, no request was refused, and no four
      PATCHes in a row went unacknowledged; otherwise its error names the reply that ended it. */
  method Upload(file: Bytes, hash: Bytes -> Digest, server: TusServer)
    returns (r: Result<(), UploadError>, ghost run: seq<Exchange>)
    requires server.Valid()
    modifies server
    ensures r.Ok? ==> server.stored.Some? && Same(server.stored.value, file, hash)
    ensures r.Ok? && Injective(hash) ==> server.stored == Some(file)
    ensures old(server.stored).Some? ==> server.stored == old(server.stored)
    ensures server.log == old(server.log) + run && run != [] && AllInStep(file, run)
    ensures r.Ok? && |run| > 1 ==> server.content == file && server.stored == Some(file)
    ensures |run| > 2 ==> server.content <= file
    ensures r.Ok? <==> && Smooth(run)
                       && (old(server.stored).Some? ==> Same(old(server.stored).value, file, hash))
    ensures r.Err? ==> Explains(r.error, run, file, hash)
  {
    var size, digest := |file|, hash(file);
    var existing := server.Get();
    run := [Got(existing)];
    Logged(file, old(server.log), [], Got(existing));
    var present := Verify(existing, size, digest, hash);
    if present.Err? { return Err(present.error), run; }
    if present.value { return Ok(()), run; }
    var created := server.Create(size);
    Logged(file, old(server.log), run, Posted(created));
    run := run + [Posted(created)];
    if !created { return Err(CreateRefused), run; }

    ghost var more;
    r, more := SendAndCheck(file, hash, server);
    Joined(run, more);
    Further(file, run, more);
    run := run + more;
  }
}
