/**
 Attaching a file to a draft: the chunk loop of the server (over slices of the content) and that of
 the Windows program (over one reused buffer, in 32-bit arithmetic) put the same ranges.
 */
module ChunkUpload {
  import opened Basics

  newtype byte = x: int | 0 <= x < 256
  newtype int32 = x: int | -0x8000_0000 <= x < 0x8000_0000

  const MAX_BYTES := 20_971_520
  const DIRECT_LIMIT := 3_000_000
  const CHUNK := 2_097_152

  /** One PUT: the inclusive range and total of its Content-Range header, and its body. */
  datatype Put = Put(first: int, last: int, total: int, body: seq<byte>)

  datatype Reply = Failed | Answer(status: int, oversized: bool)

  datatype Outcome =
    | Attached | InvalidSize | NotDraft | NoUploadUrl | RequestFailed
    | BadRange | TransportFailed | TooLarge | Rejected | UnexpectedState

  // ----- the server's loop -----

  method UploadChunk(chunk: seq<byte>, start: int, total: int, reply: Reply)
    returns (sent: Option<Put>, outcome: Outcome)
    ensures sent.None? <==> chunk == [] || start < 0 || total < start + |chunk|
    ensures sent.Some? ==> sent.value == Put(start, start + |chunk| - 1, total, chunk)
    ensures outcome == if sent.None? then BadRange else Received(reply)
  {
    if chunk == [] || start < 0 || total < start + |chunk| {
      return None, BadRange;
    }
    sent := Some(Put(start, start + |chunk| - 1, total, chunk));
    match reply {
      case Failed => outcome := TransportFailed;
      case Answer(status, oversized) =>
        if oversized {
          outcome := TooLarge;
        } else if status !in {200, 201} {
          outcome := Rejected;
        } else {
          outcome := Attached;
        }
    }
  }

  method UploadChunks(content: seq<byte>, replies: seq<Reply>) returns (puts: seq<Put>, outcome: Outcome)
    requires content != [] && Enough(|content|, replies)
    ensures Uploaded(content, replies, puts)
    ensures outcome == Verdict(|content|, replies, |puts| - 1)
  {
    puts := [];
    var start := 0;
    while start < |content|
      invariant start == |puts| * CHUNK && start < |content| + CHUNK
      invariant PutsOf(content, puts)
      invariant |puts| <= |replies| && AllAccepted(|content|, replies, |puts|)
    {
      var chunk := content[start..if start + CHUNK < |content| then start + CHUNK else |content|];
      var sent, result := UploadChunk(chunk, start, |content|, replies[|puts|]);
      assert sent == Some(PutAt(content, |puts|));
      if sent.Some? {
        puts := puts + [sent.value];
      }
      if result != Attached {
        return puts, result;
      }
      var isFinal := start + |chunk| == |content|;
      if replies[|puts| - 1].status != (if isFinal then 201 else 200) {
        return puts, UnexpectedState;
      }
      AcceptedGrows(|content|, replies, |puts| - 1);
      start := start + CHUNK;
    }
    assert Accepted(|content|, replies, |puts| - 1);
    outcome := Attached;
  }

  /**
   The whole call. The parameters answer its three Graph requests: whether the message is a draft, whether the
   direct attachment was accepted, whether the upload session has a URL; None for a request that failed.
   */
  method AddDraftAttachment(content: seq<byte>, isDraft: Option<bool>, posted: bool, hasUrl: Option<bool>,
                            replies: seq<Reply>)
    returns (direct: Option<seq<byte>>, puts: seq<Put>, outcome: Outcome)
    requires Enough(|content|, replies)
    ensures direct == if 1 <= |content| < DIRECT_LIMIT && isDraft == Some(true) then Some(content) else None
    ensures puts == [] <==> !(DIRECT_LIMIT <= |content| <= MAX_BYTES && isDraft == Some(true) && hasUrl == Some(true))
    ensures puts != [] ==> Uploaded(content, replies, puts)
    ensures outcome ==
      if !(1 <= |content| <= MAX_BYTES) then InvalidSize
      else if isDraft.None? then RequestFailed
      else if !isDraft.value then NotDraft
      else if |content| < DIRECT_LIMIT then if posted then Attached else RequestFailed
      else if hasUrl.None? then RequestFailed
      else if !hasUrl.value then NoUploadUrl
      else Verdict(|content|, replies, |puts| - 1)
  {
    direct, puts := None, [];
    if !(1 <= |content| <= MAX_BYTES) {
      return direct, puts, InvalidSize;
    }
    if isDraft.None? {
      return direct, puts, RequestFailed;
    }
    if !isDraft.value {
      return direct, puts, NotDraft;
    }
    if |content| < DIRECT_LIMIT {
      return Some(content), puts, if posted then Attached else RequestFailed;
    }
    if hasUrl.None? {
      return direct, puts, RequestFailed;
    }
    if !hasUrl.value {
      return direct, puts, NoUploadUrl;
    }
    puts, outcome := UploadChunks(content, replies);
  }

  // ----- the Windows program's loop -----

  method ReadExactly(file: seq<byte>, position: int32, buffer: array<byte>, length: int32)
    requires 0 <= position && 0 <= length && position as int + length as int <= |file| && length as int <= buffer.Length
    modifies buffer
    ensures buffer[..length] == file[position..position as int + length as int]
  {
    forall i | 0 <= i < length as int {
      buffer[i] := file[position as int + i];
    }
  }

  /** Fills the buffer with the next range of the file and wraps its used part into a request. */
  method ReadRange(file: seq<byte>, start: int32, contentLength: int32, buffer: array<byte>, ghost i: nat)
    returns (put: Put, isFinal: bool)
    requires contentLength as int == |file| <= MAX_BYTES && start as int == i * CHUNK < |file| && buffer.Length == CHUNK
    modifies buffer
    ensures put == PutAt(file, i)
    ensures isFinal <==> (i + 1) * CHUNK >= |file|
  {
    var length := if CHUNK as int32 < contentLength - start then CHUNK as int32 else contentLength - start;
    ReadExactly(file, start, buffer, length);
    put := Put(start as int, (start + length - 1) as int, contentLength as int, buffer[..length]);
    isFinal := start + length == contentLength;
    MinRange(file, start as int, length as int, i);
  }

  function Checked(reply: Reply, expected: int): (r: Outcome)
    ensures r == Attached <==> reply == Answer(expected, false)
  {
    match reply
    case Failed => TransportFailed
    case Answer(status, oversized) =>
      if status != expected then UnexpectedState else if oversized then TooLarge else Attached
  }

  /** The second result is what the incremental hash has been fed. */
  method UploadFile(content: seq<byte>, replies: seq<Reply>)
    returns (puts: seq<Put>, digested: seq<byte>, outcome: Outcome)
    requires content != [] && |content| <= MAX_BYTES && Enough(|content|, replies)
    ensures Uploaded(content, replies, puts)
    ensures digested == Joined(puts)
    ensures outcome == Checked(replies[|puts| - 1], Expected(|content|, |puts| - 1))
  {
    var contentLength := |content| as int32;
    puts, digested := [], [];
    var buffer := new byte[CHUNK];
    var start: int32 := 0;
    while start < contentLength
      invariant start as int == |puts| * CHUNK && fresh(buffer) && buffer.Length == CHUNK
      invariant start as int < |content| + CHUNK
      invariant PutsOf(content, puts) && digested == Joined(puts)
      invariant |puts| <= |replies| && AllAccepted(|content|, replies, |puts|)
    {
      var put, isFinal := ReadRange(content, start, contentLength, buffer, |puts|);
      digested := digested + put.body;
      PutGrows(content, puts, put);
      puts := puts + [put];
      var result := Checked(replies[|puts| - 1], if isFinal then 201 else 200);
      if result != Attached {
        return puts, digested, result;
      }
      AcceptedGrows(|content|, replies, |puts| - 1);
      start := start + CHUNK as int32;
    }
    assert Accepted(|content|, replies, |puts| - 1);
    outcome := Attached;
  }

  // ----- what both loops do -----

  function End(total: nat, i: nat): nat {
    if (i + 1) * CHUNK < total then (i + 1) * CHUNK else total
  }

  function PutAt(content: seq<byte>, i: nat): Put
    requires i * CHUNK < |content|
  {
    Put(i * CHUNK, End(|content|, i) - 1, |content|, content[i * CHUNK..End(|content|, i)])
  }

  predicate PutsOf(content: seq<byte>, puts: seq<Put>) {
    forall i :: 0 <= i < |puts| ==> i * CHUNK < |content| && puts[i] == PutAt(content, i)
  }

  function Received(reply: Reply): Outcome {
    match reply
    case Failed => TransportFailed
    case Answer(status, oversized) =>
      if oversized then TooLarge else if status in {200, 201} then Attached else Rejected
  }

  function Expected(total: nat, i: nat): int {
    if (i + 1) * CHUNK >= total then 201 else 200
  }

  /** There is a reply for every range. */
  predicate Enough(total: nat, replies: seq<Reply>) {
    total <= |replies| * CHUNK
  }

  predicate Accepted(total: nat, replies: seq<Reply>, i: nat)
    requires i < |replies|
  {
    replies[i] == Answer(Expected(total, i), false)
  }

  predicate AllAccepted(total: nat, replies: seq<Reply>, n: nat)
    requires n <= |replies|
  {
    forall i :: 0 <= i < n ==> Accepted(total, replies, i)
  }

  lemma AcceptedGrows(total: nat, replies: seq<Reply>, n: nat)
    requires n < |replies| && AllAccepted(total, replies, n) && Accepted(total, replies, n)
    ensures AllAccepted(total, replies, n + 1)
  {}

  function Verdict(total: nat, replies: seq<Reply>, i: nat): Outcome
    requires i < |replies|
  {
    if Received(replies[i]) == Attached && !Accepted(total, replies, i) then UnexpectedState else Received(replies[i])
  }

  /** The puts sent: the next range after each accepted one, until a reply is not accepted or all is sent. */
  ghost predicate Uploaded(content: seq<byte>, replies: seq<Reply>, puts: seq<Put>) {
    && 0 < |puts| <= |replies| && PutsOf(content, puts)
    && AllAccepted(|content|, replies, |puts| - 1)
    && (|puts| * CHUNK >= |content| || !Accepted(|content|, replies, |puts| - 1))
  }

  function Joined(puts: seq<Put>): seq<byte> {
    if puts == [] then [] else Joined(puts[..|puts| - 1]) + puts[|puts| - 1].body
  }

  lemma JoinedGrows(puts: seq<Put>, put: Put)
    ensures Joined(puts + [put]) == Joined(puts) + put.body
  {
    assert (puts + [put])[..|puts|] == puts;
  }

  lemma PutGrows(content: seq<byte>, puts: seq<Put>, put: Put)
    requires PutsOf(content, puts) && |puts| * CHUNK < |content| && put == PutAt(content, |puts|)
    ensures PutsOf(content, puts + [put]) && Joined(puts + [put]) == Joined(puts) + put.body
  {
    JoinedGrows(puts, put);
  }

  lemma MinRange(file: seq<byte>, start: int, length: int, i: nat)
    requires start == i * CHUNK < |file| && length == if CHUNK < |file| - start then CHUNK else |file| - start
    ensures PutAt(file, i) == Put(start, start + length - 1, |file|, file[start..start + length])
    ensures start + length == |file| <==> (i + 1) * CHUNK >= |file|
  {}

  // ----- what the ranges are -----

  lemma RangeAt(content: seq<byte>, puts: seq<Put>, i: nat)
    requires PutsOf(content, puts) && i < |puts|
    ensures puts[i] == PutAt(content, i) && puts[i].first == i * CHUNK
    ensures 0 <= puts[i].first <= puts[i].last < puts[i].total == |content|
    ensures 0 < |puts[i].body| == puts[i].last - puts[i].first + 1 <= CHUNK
    ensures i + 1 < |puts| ==> puts[i].last + 1 == (i + 1) * CHUNK
  {
    assert i + 1 < |puts| ==> puts[i + 1] == PutAt(content, i + 1);
  }

  lemma {:induction false} JoinedIsPrefix(content: seq<byte>, puts: seq<Put>)
    requires PutsOf(content, puts) && puts != []
    ensures Joined(puts) == content[..puts[|puts| - 1].last + 1]
  {
    var n := |puts| - 1;
    RangeAt(content, puts, n);
    if n > 0 {
      RangeAt(content, puts, n - 1);
      JoinedIsPrefix(content, puts[..n]);
    }
  }

  /** The ranges tile the content from its first byte: each starts where the one before ends, none is empty or long. */
  lemma RangesTile(content: seq<byte>, puts: seq<Put>)
    requires PutsOf(content, puts) && puts != []
    ensures puts[0].first == 0
    ensures forall i :: 0 < i < |puts| ==> puts[i].first == puts[i - 1].last + 1
    ensures forall i :: 0 <= i < |puts| ==> 0 <= puts[i].first <= puts[i].last < puts[i].total == |content|
    ensures forall i :: 0 <= i < |puts| ==> 0 < |puts[i].body| == puts[i].last - puts[i].first + 1 <= CHUNK
    ensures Joined(puts) == content[..puts[|puts| - 1].last + 1]
  {
    RangeAt(content, puts, 0);
    forall i | 0 < i < |puts| ensures puts[i].first == puts[i - 1].last + 1 {
      RangeAt(content, puts, i);
      RangeAt(content, puts, i - 1);
    }
    forall i | 0 <= i < |puts|
      ensures 0 <= puts[i].first <= puts[i].last < puts[i].total == |content|
      ensures 0 < |puts[i].body| == puts[i].last - puts[i].first + 1 <= CHUNK
    {
      RangeAt(content, puts, i);
    }
    JoinedIsPrefix(content, puts);
  }

  lemma AcceptedMeans(total: nat, replies: seq<Reply>, last: nat)
    requires last < |replies| && last * CHUNK < total <= (last + 1) * CHUNK
    ensures AllAccepted(total, replies, last + 1)
       <==> replies[last] == Answer(201, false) && forall i :: 0 <= i < last ==> replies[i] == Answer(200, false)
  {
    forall i | 0 <= i <= last
      ensures Accepted(total, replies, i) <==> replies[i] == Answer(if i == last then 201 else 200, false)
    {}
    if AllAccepted(total, replies, last + 1) {
      assert Accepted(total, replies, last);
      forall i | 0 <= i < last ensures replies[i] == Answer(200, false) {
        assert Accepted(total, replies, i);
      }
    }
  }

  /** The upload succeeds exactly when every range was sent and accepted: 200 for all but the last, 201 for that. */
  lemma {:induction false} AttachedExactly(content: seq<byte>, replies: seq<Reply>, puts: seq<Put>, last: nat)
    requires Uploaded(content, replies, puts) && last < |replies| && last * CHUNK < |content| <= (last + 1) * CHUNK
    ensures Accepted(|content|, replies, |puts| - 1)
       <==> replies[last] == Answer(201, false) && forall i :: 0 <= i < last ==> replies[i] == Answer(200, false)
    ensures Accepted(|content|, replies, |puts| - 1) ==> |puts| == last + 1 && Joined(puts) == content
  {
    RangeAt(content, puts, |puts| - 1);
    AcceptedMeans(|content|, replies, last);
    if Accepted(|content|, replies, |puts| - 1) {
      AcceptedGrows(|content|, replies, |puts| - 1);
      JoinedIsPrefix(content, puts);
      assert content[..|content|] == content;
    }
  }

  /** The two programs, given the same file and the same replies, put the same ranges. */
  lemma SameRanges(content: seq<byte>, replies: seq<Reply>, puts: seq<Put>, puts': seq<Put>)
    requires Uploaded(content, replies, puts) && Uploaded(content, replies, puts')
    ensures puts == puts'
  {
    Shorter(content, replies, puts, puts');
    Shorter(content, replies, puts', puts);
  }

  lemma Shorter(content: seq<byte>, replies: seq<Reply>, puts: seq<Put>, puts': seq<Put>)
    requires Uploaded(content, replies, puts) && Uploaded(content, replies, puts')
    ensures |puts'| <= |puts|
  {
    RangeAt(content, puts', |puts'| - 1);
  }
}
