/** Reading a response body under a size limit, asking the content-type policy about a window of
    its first bytes when the declared type alone does not decide.

    Bodies are identity coded (section 8.4 of RFC 9110); the other codings are not part of this
    model.  A stream is the sequence of chunks it happens to arrive in. */
module BodyReader {
  import opened Wrappers

  newtype Byte = b: int | 0 <= b < 256

  type Bytes = seq<Byte>

  const SNIFF_WINDOW := 4096

  datatype Answer = Allow | Deny | Unsure

  /** The policy for one declared content type, asked without a window or with one. */
  type Policy = Option<Bytes> -> Answer

  datatype Category = ContentType | Size

  datatype Read = Accepted(body: Bytes) | Refused(category: Category)

  // ----- the decoder's identity path

  /** At most one byte more than `maxOutput`, and the input not consumed. */
  function Decode(data: Bytes, maxOutput: nat): (r: (Bytes, Bytes))
    ensures r.0 + r.1 == data
    ensures |r.0| == if |data| <= maxOutput then |data| else maxOutput + 1
  {
    if |data| <= maxOutput then (data, []) else (data[..maxOutput + 1], data[maxOutput + 1..])
  }

  // ----- what a read answers

  function Total(chunks: seq<Bytes>): Bytes {
    if chunks == [] then [] else Total(chunks[..|chunks| - 1]) + chunks[|chunks| - 1]
  }

  function Window(body: Bytes): (r: Bytes)
    ensures r <= body && (|r| == |body| <= 4096 || |r| == 4096)
  {
    if |body| < SNIFF_WINDOW then body else body[..SNIFF_WINDOW]
  }

  /** How many chunks arrive before the size limit is passed. */
  function Fitting(chunks: seq<Bytes>, maxBytes: nat): (n: nat)
    ensures n <= |chunks| && |Total(chunks[..n])| <= maxBytes
    ensures n < |chunks| ==> |Total(chunks[..n + 1])| > maxBytes
    ensures n == |chunks| <==> |Total(chunks)| <= maxBytes
  {
    if chunks == [] then 0
    else
      var k := |chunks| - 1;
      assert chunks[..|chunks|] == chunks;
      var n := Fitting(chunks[..k], maxBytes);
      assert chunks[..k][..n] == chunks[..n] && (n < k ==> chunks[..k][..n + 1] == chunks[..n + 1]);
      if n == k && |Total(chunks)| <= maxBytes then k + 1 else n
  }

  predicate WindowRefused(policy: Policy, body: Bytes) { policy(None) == Unsure && policy(Some(Window(body))) != Allow }

  /** A full window is judged as soon as the chunks that fit hold one, anything else once the
      stream has ended within the limit. */
  function Reading(chunks: seq<Bytes>, maxBytes: nat, policy: Policy): Read {
    var fitting := Total(chunks[..Fitting(chunks, maxBytes)]);
    if policy(None) == Deny then Refused(ContentType)
    else if |fitting| >= SNIFF_WINDOW && WindowRefused(policy, fitting) then Refused(ContentType)
    else if |Total(chunks)| > maxBytes then Refused(Size)
    else if WindowRefused(policy, Total(chunks)) then Refused(ContentType)
    else Accepted(Total(chunks))
  }

  predicate Acceptable(body: Bytes, maxBytes: nat, policy: Policy) {
    && |body| <= maxBytes && policy(None) != Deny
    && (policy(None) == Unsure ==> policy(Some(Window(body))) == Allow)
  }

  /** Acceptance, and the bytes returned, depend on the whole body only: an accepted body is all of
      it, within the limit. */
  lemma AcceptanceIgnoresChunks(chunks: seq<Bytes>, maxBytes: nat, policy: Policy)
    ensures Reading(chunks, maxBytes, policy).Accepted? <==> Acceptable(Total(chunks), maxBytes, policy)
    ensures Reading(chunks, maxBytes, policy).Accepted? ==> Reading(chunks, maxBytes, policy).body == Total(chunks)
  {
    TakeAll(chunks);
  }

  /** Why a body is refused does depend on its chunks: over the limit and with a window the policy
      dislikes, it is the chunk that passes the limit that decides which is noticed first. */
  lemma RefusalDependsOnChunks(maxBytes: nat, policy: Policy, window: Bytes, more: Bytes)
    requires |window| == SNIFF_WINDOW && SNIFF_WINDOW <= maxBytes < |window + more|
    requires policy(None) == Unsure && policy(Some(window)) != Allow
    ensures Total([window, more]) == Total([window + more])
    ensures Reading([window, more], maxBytes, policy) == Refused(ContentType)
    ensures Reading([window + more], maxBytes, policy) == Refused(Size)
  {
    var two, one := [window, more], [window + more];
    assert two[..1] == [window] && [window][..0] == [] && one[..0] == [] && two[..2] == two && one[..1] == one;
    assert Total([window]) == [] + window == window && Total(one) == [] + (window + more) == window + more;
    assert Total(two) == window + more;
    assert Fitting(one, maxBytes) == 0 && Fitting([window], maxBytes) == 1;
    assert Fitting(two, maxBytes) == 1;
    assert window[..SNIFF_WINDOW] == window;
  }

  /** Whether the category of a refusal can depend on the chunks. */
  predicate Racing(body: Bytes, maxBytes: nat, policy: Policy) {
    |body| > maxBytes && maxBytes >= SNIFF_WINDOW && WindowRefused(policy, body)
  }

  lemma ReadingOfBody(chunks: seq<Bytes>, maxBytes: nat, policy: Policy)
    ensures !Racing(Total(chunks), maxBytes, policy) ==>
              Reading(chunks, maxBytes, policy)
              == if policy(None) == Deny then Refused(ContentType)
                 else if |Total(chunks)| > maxBytes then Refused(Size)
                 else if WindowRefused(policy, Total(chunks)) then Refused(ContentType)
                 else Accepted(Total(chunks))
  {
    var n := Fitting(chunks, maxBytes);
    TakeAll(chunks);
    TotalGrows(chunks, n, |chunks|);
    if |Total(chunks[..n])| >= SNIFF_WINDOW { WindowStays(Total(chunks[..n]), Total(chunks)); }
  }

  /** Two ways of chunking one body can be read differently if and only if the body is over the
      limit, the limit has room for a whole window, and the policy refuses the window. */
  lemma ReadingDependsOnChunks(body: Bytes, maxBytes: nat, policy: Policy)
    ensures (exists c, d :: Total(c) == body && Total(d) == body && Reading(c, maxBytes, policy) != Reading(d, maxBytes, policy))
            <==> Racing(body, maxBytes, policy)
  {
    if Racing(body, maxBytes, policy) {
      var window, more := body[..SNIFF_WINDOW], body[SNIFF_WINDOW..];
      assert window + more == body;
      RefusalDependsOnChunks(maxBytes, policy, window, more);
      assert [window + more][..0] == [] && Total([body]) == [] + body;
    } else {
      forall c, d | Total(c) == body && Total(d) == body ensures Reading(c, maxBytes, policy) == Reading(d, maxBytes, policy) {
        ReadingOfBody(c, maxBytes, policy);
        ReadingOfBody(d, maxBytes, policy);
      }
    }
  }

  // ----- the reader

  /** Until the window is full the sniffed bytes are the body so far; after that the policy has
      allowed it. */
  ghost predicate Sniffed(policy: Policy, body: Bytes, sniff: Bytes, needsSniff: bool) {
    && policy(None) != Deny
    && (if needsSniff then policy(None) == Unsure && sniff == body && |sniff| < SNIFF_WINDOW
        else policy(None) == Unsure ==> |body| >= SNIFF_WINDOW && policy(Some(Window(body))) == Allow)
  }

  lemma WindowStays(body: Bytes, longer: Bytes)
    requires |body| >= SNIFF_WINDOW && body <= longer
    ensures Window(longer) == Window(body)
  {}

  /** Feeds one chunk through the decoder, judging the window when it fills up.  Decoded bytes
      never exceed what remains, since identity coding adds none. */
  method ReadChunk(policy: Policy, chunk: Bytes, maxBytes: nat, body0: Bytes, sniff0: Bytes, needs0: bool)
    returns (refused: bool, body: Bytes, sniff: Bytes, needsSniff: bool, ghost asked: Option<Bytes>)
    requires Sniffed(policy, body0, sniff0, needs0) && |body0| + |chunk| <= maxBytes
    ensures asked.Some? ==> needs0 && asked.value == Window(body0 + chunk) && |body0 + chunk| >= SNIFF_WINDOW
    ensures refused ==> |body0 + chunk| >= SNIFF_WINDOW && WindowRefused(policy, body0 + chunk)
    ensures !refused ==> body == body0 + chunk && Sniffed(policy, body, sniff, needsSniff)
    ensures needsSniff ==> asked.None?
    ensures needs0 && !refused && !needsSniff ==> asked.Some?
  {
    refused, body, sniff, needsSniff, asked := false, body0, sniff0, needs0, None;
    var pending := chunk;
    while pending != []
      invariant body + pending == body0 + chunk && !refused
      invariant Sniffed(policy, body, sniff, needsSniff)
      invariant needsSniff ==> needs0 && asked.None?
      invariant needs0 && !needsSniff ==> asked.Some?
      invariant asked.Some? ==> needs0 && asked.value == Window(body0 + chunk) && |body0 + chunk| >= SNIFF_WINDOW
      decreases |pending|
    {
      var remaining: nat := maxBytes - |body|;
      var limit: nat := if needsSniff && SNIFF_WINDOW - |sniff| < remaining then SNIFF_WINDOW - |sniff| else remaining;
      var (decoded, rest) := Decode(pending, limit);
      assert |decoded| <= remaining;
      Sniff(body, decoded, rest);
      body, pending := body + decoded, rest;
      if needsSniff {
        var left := SNIFF_WINDOW - |sniff|;
        sniff := sniff + if |decoded| < left then decoded else decoded[..left];
        if |sniff| >= SNIFF_WINDOW {
          asked := Some(sniff);
          if policy(Some(sniff)) != Allow { return true, body, sniff, false, asked; }
          needsSniff := false;
        }
      }
    }
  }

  lemma Sniff(body: Bytes, decoded: Bytes, rest: Bytes)
    ensures (body + decoded) + rest == body + (decoded + rest)
    ensures |body + decoded| >= SNIFF_WINDOW ==> Window(body + (decoded + rest)) == Window(body + decoded)
    ensures |body| < SNIFF_WINDOW <= |body + decoded| ==> Window(body + decoded) == body + decoded[..SNIFF_WINDOW - |body|]
    ensures |body| >= SNIFF_WINDOW ==> Window(body + decoded) == Window(body)
  {
    assert (body + decoded) + rest == body + (decoded + rest);
  }

  lemma ChunkAdded(chunks: seq<Bytes>, i: nat)
    requires i < |chunks|
    ensures Total(chunks[..i + 1]) == Total(chunks[..i]) + chunks[i]
  {
    assert chunks[..i + 1][..i] == chunks[..i];
  }

  lemma {:induction false} TotalGrows(chunks: seq<Bytes>, i: nat, n: nat)
    requires i <= n <= |chunks|
    ensures Total(chunks[..i]) <= Total(chunks[..n])
  {
    if i < n {
      TotalGrows(chunks, i, n - 1);
      ChunkAdded(chunks, n - 1);
    }
  }

  lemma TooLong(chunks: seq<Bytes>, i: nat, maxBytes: nat)
    requires i < |chunks| && |Total(chunks[..i])| <= maxBytes < |Total(chunks[..i + 1])|
    ensures Fitting(chunks, maxBytes) == i && |Total(chunks)| > maxBytes
    ensures Total(chunks[..i]) <= Total(chunks)
  {
    var n := Fitting(chunks, maxBytes);
    assert chunks[..|chunks|] == chunks;
    TotalGrows(chunks, i + 1, |chunks|);
    TotalGrows(chunks, i, |chunks|);
    if n < i { TotalGrows(chunks, n + 1, i); }
    if n > i { TotalGrows(chunks, i + 1, n); }
  }

  /** A window filled within the limit is judged whatever follows it. */
  lemma RefusedEarly(chunks: seq<Bytes>, i: nat, maxBytes: nat, policy: Policy)
    requires i < |chunks| && |Total(chunks[..i + 1])| <= maxBytes && policy(None) != Deny
    requires |Total(chunks[..i + 1])| >= SNIFF_WINDOW && WindowRefused(policy, Total(chunks[..i + 1]))
    ensures Reading(chunks, maxBytes, policy) == Refused(ContentType)
    ensures Window(Total(chunks[..i + 1])) == Window(Total(chunks))
  {
    var n := Fitting(chunks, maxBytes);
    TakeAll(chunks);
    if n < i + 1 { TotalGrows(chunks, n + 1, i + 1); }
    TotalGrows(chunks, i + 1, n);
    TotalGrows(chunks, i + 1, |chunks|);
    assert chunks[..|chunks|] == chunks;
    WindowStays(Total(chunks[..i + 1]), Total(chunks[..n]));
    WindowStays(Total(chunks[..i + 1]), Total(chunks));
  }

  /** Reads a body, telling also which window the policy was asked about, if any: always the first
      4096 bytes of the body, or all of a shorter one. */
  method ReadBounded(chunks: seq<Bytes>, maxBytes: nat, policy: Policy) returns (r: Read, ghost asked: Option<Bytes>)
    ensures r == Reading(chunks, maxBytes, policy)
    ensures asked.Some? ==> policy(None) == Unsure && asked.value == Window(Total(chunks))
    ensures r.Accepted? && policy(None) == Unsure ==> asked.Some?
  {
    asked := None;
    var decision := policy(None);
    if decision == Deny { return Refused(ContentType), asked; }
    var body, sniff, needsSniff := [], [], decision == Unsure;
    var raw: nat := 0;
    for i := 0 to |chunks|
      invariant body == Total(chunks[..i]) && raw == |body| <= maxBytes
      invariant Sniffed(policy, body, sniff, needsSniff)
      invariant needsSniff ==> asked.None?
      invariant !needsSniff && policy(None) == Unsure ==> asked.Some?
      invariant asked.Some? ==> policy(None) == Unsure && asked.value == Window(body) && |body| >= SNIFF_WINDOW
    {
      raw := raw + |chunks[i]|;
      if raw > maxBytes {
        ChunkAdded(chunks, i);
        TooLong(chunks, i, maxBytes);
        if asked.Some? { WindowStays(body, Total(chunks)); }
        return Refused(Size), asked;
      }
      if asked.Some? { WindowStays(body, body + chunks[i]); }
      var refused;
      ghost var window;
      refused, body, sniff, needsSniff, window := ReadChunk(policy, chunks[i], maxBytes, body, sniff, needsSniff);
      asked := if window.Some? then window else asked;
      ChunkAdded(chunks, i);
      if refused {
        RefusedEarly(chunks, i, maxBytes, policy);
        return Refused(ContentType), asked;
      }
    }
    TakeAll(chunks);
    if needsSniff {
      asked := Some(sniff);
      if policy(Some(sniff)) != Allow { return Refused(ContentType), asked; }
    }
    r := Accepted(body);
  }
}
