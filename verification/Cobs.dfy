/** Consistent Overhead Byte Stuffing: the block structure of Cheshire and
    Baker, and the index-driven C loops and the appending Python loops that
    both compute it. */
module Cobs {
  import opened Words
  import opened StreamSession

  const FULL_BLOCK := 254

  // ---- The encoding, block by block ----

  /** The length of the first block: a run of non-zero bytes, 254 at most. */
  function Block(data: seq<u8>): (n: nat)
    ensures n <= |data| && n <= FULL_BLOCK
    ensures forall i :: 0 <= i < n ==> data[i] != 0
    ensures n < |data| && n < FULL_BLOCK ==> data[n] == 0
  {
    BlockFrom(data, 0)
  }

  function BlockFrom(data: seq<u8>, i: nat): (n: nat)
    requires i <= |data| && i <= FULL_BLOCK
    ensures i <= n <= |data| && n <= FULL_BLOCK
    ensures forall k :: i <= k < n ==> data[k] != 0
    ensures n < |data| && n < FULL_BLOCK ==> data[n] == 0
    decreases FULL_BLOCK - i
  {
    if i < |data| && i < FULL_BLOCK && data[i] != 0 then BlockFrom(data, i + 1) else i
  }

  lemma BlockIs(data: seq<u8>, n: nat)
    requires n <= |data| && n <= FULL_BLOCK && forall i :: 0 <= i < n ==> data[i] != 0
    requires n < |data| && n < FULL_BLOCK ==> data[n] == 0
    ensures Block(data) == n
  {
  }

  /** Each block is its length plus one and its bytes; a full block stands for
      no zero, any other block but the last for one. */
  function Encode(data: seq<u8>): (e: seq<u8>)
    ensures |data| < |e|
  {
    var n := Block(data);
    if n == FULL_BLOCK then [(n + 1) as u8] + data[..n] + Encode(data[n..])
    else if n == |data| then [(n + 1) as u8] + data
    else [(n + 1) as u8] + data[..n] + Encode(data[n + 1..])
  }

  /** What a non-empty tail of an encoding stands for. */
  function DecodeTail(e: seq<u8>): Option<seq<u8>> {
    if e == [] then Some([])
    else if e[0] == 0 || e[0] > |e| then None
    else
      var rest := DecodeTail(e[e[0]..]);
      if rest.None? then None
      else Some(e[1..e[0]] + (if e[0] != 0xFF && |e| > e[0] then [0] else []) + rest.value)
  }

  function Decode(e: seq<u8>): Option<seq<u8>> {
    if e == [] then None else DecodeTail(e)
  }

  /** One block of a decoding. */
  lemma DecodeBlock(bytes: seq<u8>, rest: seq<u8>)
    requires |bytes| <= FULL_BLOCK
    ensures DecodeTail([(|bytes| + 1) as u8] + bytes + rest) ==
              Prepend(bytes + (if |bytes| < FULL_BLOCK && rest != [] then [0] else []), DecodeTail(rest))
  {
    var e := [(|bytes| + 1) as u8] + bytes + rest;
    assert e[e[0]..] == rest && e[1..e[0]] == bytes;
  }

  /** The encoding's equation, block by block. */
  lemma EncodedShape(data: seq<u8>)
    ensures var n := Block(data);
            Encode(data) == if n == FULL_BLOCK then [(n + 1) as u8] + data[..n] + Encode(data[n..])
                            else if n == |data| then [(n + 1) as u8] + data
                            else [(n + 1) as u8] + data[..n] + Encode(data[n + 1..])
  {
  }

  lemma Rejoin(data: seq<u8>, n: nat)
    requires n <= |data|
    ensures data[..n] + [] + data[n..] == data
    ensures n < |data| && data[n] == 0 ==> data[..n] + [0] + data[n + 1..] == data
  {
  }

  lemma DecodeJoins(block: seq<u8>, tail: seq<u8>)
    requires |block| <= FULL_BLOCK && Decode(Encode(tail)) == Some(tail)
    ensures Decode([(|block| + 1) as u8] + block + Encode(tail)) ==
              Some(block + (if |block| < FULL_BLOCK then [0] else []) + tail)
  {
    hide Encode, DecodeTail;
    EncodeNonEmpty(tail);
    DecodeBlock(block, Encode(tail));
  }

  lemma EncodeNonEmpty(data: seq<u8>)
    ensures Encode(data) != []
  {
  }

  lemma DecodeLast(block: seq<u8>)
    requires |block| < FULL_BLOCK
    ensures Decode([(|block| + 1) as u8] + block) == Some(block)
  {
    DecodeBlock(block, []);
    assert [(|block| + 1) as u8] + block + [] == [(|block| + 1) as u8] + block;
    assert block + [] + [] == block;
  }

  ghost predicate ZeroFree(bytes: seq<u8>) {
    forall i :: 0 <= i < |bytes| ==> bytes[i] != 0
  }

  /** The coding of any byte string, from its runs without a zero: a run of fewer
      than 254 bytes is preceded by its length plus one, and so ends the string
      or stands for the run and a zero; 254 bytes are preceded by 255 and stand
      for themselves. */
  lemma EncodingRules(run: seq<u8>, rest: seq<u8>)
    requires ZeroFree(run) && |run| <= 254
    ensures |run| < 254 ==> Encode(run) == [(|run| + 1) as u8] + run
    ensures |run| < 254 ==> Encode(run + [0] + rest) == [(|run| + 1) as u8] + run + Encode(rest)
    ensures |run| == 254 ==> Encode(run + rest) == [255] + run + Encode(rest)
  {
    hide Encode;
    EncodedShape(run);
    if |run| < 254 {
      BlockIs(run, |run|);
      var data := run + [0] + rest;
      BlockIs(data, |run|);
      EncodedShape(data);
      assert data[..|run|] == run && data[|run| + 1..] == rest;
    } else {
      var data := run + rest;
      BlockIs(data, 254);
      EncodedShape(data);
      assert data[..254] == run && data[254..] == rest;
    }
  }

  /** What is decoded, from the first code byte: it counts itself and the bytes
      that follow it, which are kept; unless it is 255 or nothing comes after, a
      zero follows them. A code byte of zero, or one that reaches past the end, is
      refused, and so is the empty string. */
  lemma DecodingRules(block: seq<u8>, rest: seq<u8>)
    requires |block| <= 254
    ensures Decode([(|block| + 1) as u8] + block) == Some(block)
    ensures rest != [] ==>
              Decode([(|block| + 1) as u8] + block + rest)
              == Prepend(block + (if |block| < 254 then [0] else []), Decode(rest))
    ensures Decode([]).None? && Decode([0] + rest).None?
    ensures forall code: u8 :: code as int > |block| + 1 ==> Decode([code] + block).None?
  {
    hide Encode;
    DecodeBlock(block, []);
    assert [(|block| + 1) as u8] + block + [] == [(|block| + 1) as u8] + block;
    assert block + [] == block;
    if rest != [] {
      DecodeBlock(block, rest);
    }
  }

  /** Decoding undoes encoding. */
  lemma {:induction false} RoundTrip(data: seq<u8>)
    ensures Decode(Encode(data)) == Some(data)
  {
    hide Decode, Encode;
    var n := Block(data);
    EncodedShape(data);
    Rejoin(data, n);
    if n == FULL_BLOCK {
      RoundTrip(data[n..]);
      DecodeJoins(data[..n], data[n..]);
    } else if n == |data| {
      DecodeLast(data);
    } else {
      RoundTrip(data[n + 1..]);
      DecodeJoins(data[..n], data[n + 1..]);
    }
  }

  /** The encoding holds no delimiter. */
  lemma {:induction false} NoZero(data: seq<u8>)
    ensures NonZero(Encode(data))
  {
    hide Encode;
    var n := Block(data);
    EncodedShape(data);
    if n == FULL_BLOCK {
      NoZero(data[n..]);
      JoinNonZero([(n + 1) as u8] + data[..n], Encode(data[n..]));
    } else if n < |data| {
      NoZero(data[n + 1..]);
      JoinNonZero([(n + 1) as u8] + data[..n], Encode(data[n + 1..]));
    }
  }

  ghost predicate NonZero(p: seq<u8>) {
    forall i :: 0 <= i < |p| ==> p[i] != 0
  }

  lemma JoinNonZero(a: seq<u8>, b: seq<u8>)
    requires NonZero(a) && NonZero(b)
    ensures NonZero(a + b)
  {
  }

  lemma EncodedLength(data: seq<u8>)
    ensures var n := Block(data);
            |Encode(data)| == 1 + n + (if n == FULL_BLOCK then |Encode(data[n..])|
                                       else if n == |data| then 0 else |Encode(data[n + 1..])|)
  {
  }

  /** At most one byte in 254 is added, plus one. */
  lemma {:induction false} LengthBound(data: seq<u8>)
    ensures |Encode(data)| <= |data| + |data| / FULL_BLOCK + 1
  {
    hide Encode;
    var n := Block(data);
    EncodedLength(data);
    if n == FULL_BLOCK {
      LengthBound(data[n..]);
    } else if n < |data| {
      LengthBound(data[n + 1..]);
    }
  }

  // ---- Steps of the loops ----

  /** What has been written, followed by what is still to be decoded. */
  function Prepend(done: seq<u8>, rest: Option<seq<u8>>): Option<seq<u8>> {
    if rest.None? then None else Some(done + rest.value)
  }

  lemma Join(p: seq<u8>, c: u8, b: seq<u8>, e: seq<u8>)
    ensures p + ([c] + b + e) == (p + [c] + b) + e
  {
  }

  /** A block of a loop in progress: non-zero bytes, not yet full. */
  ghost predicate Pending(p: seq<u8>) {
    |p| < FULL_BLOCK && NonZero(p)
  }

  lemma ZeroEnds(p: seq<u8>, rest: seq<u8>)
    requires Pending(p)
    ensures Encode(p + ([0] + rest)) == [(|p| + 1) as u8] + p + Encode(rest)
  {
    var data := p + ([0] + rest);
    BlockIs(data, |p|);
    assert data[..|p|] == p && data[|p| + 1..] == rest;
  }

  lemma FullEnds(p: seq<u8>, rest: seq<u8>)
    requires NonZero(p) && |p| == FULL_BLOCK
    ensures Encode(p + rest) == [(|p| + 1) as u8] + p + Encode(rest)
  {
    var data := p + rest;
    BlockIs(data, |p|);
    assert data[..|p|] == p && data[|p|..] == rest;
  }

  lemma DataEnds(p: seq<u8>)
    requires Pending(p)
    ensures Encode(p + []) == [(|p| + 1) as u8] + p
  {
    assert p + [] == p;
    BlockIs(p, |p|);
  }

  /** Taking one block off the front of what is left to decode. */
  lemma DecodeStep(done: seq<u8>, e: seq<u8>, read: nat)
    requires read < |e| && e[read] != 0 && read + e[read] <= |e|
    ensures var next := read + e[read];
            Prepend(done, DecodeTail(e[read..])) ==
              Prepend(done + e[read + 1..next] + (if e[read] != 0xFF && next < |e| then [0] else []),
                  DecodeTail(e[next..]))
  {
    var tail, code := e[read..], e[read];
    assert tail[code..] == e[read + code..] && tail[1..code] == e[read + 1..read + code];
    var rest := DecodeTail(tail[code..]);
    var sep: seq<u8> := if code != 0xFF && |tail| > code then [0] else [];
    if rest.Some? {
      assert done + (tail[1..code] + sep + rest.value) == done + tail[1..code] + sep + rest.value;
    }
  }

  lemma DecodeFails(e: seq<u8>, read: nat)
    requires read < |e| && (e[read] == 0 || read + e[read] > |e|)
    ensures DecodeTail(e[read..]).None?
  {
    assert e[read..][0] == e[read];
  }

  lemma DecodeEnds(e: seq<u8>, done: seq<u8>)
    ensures Prepend(done, DecodeTail(e[|e|..])) == Some(done)
  {
    assert e[|e|..] == [] && done + [] == done;
  }

  lemma DecodeStart(e: seq<u8>)
    requires e != []
    ensures Decode(e) == Prepend([], DecodeTail(e[0..]))
  {
    assert e[0..] == e;
    if DecodeTail(e).Some? {
      assert [] + DecodeTail(e).value == DecodeTail(e).value;
    }
  }

  // ---- The firmware's loops ----

  /** What the encoder has written: finished blocks, a code byte still open, and
      the pending block. */
  ghost predicate Laid(output: seq<u8>, done: seq<u8>, pending: seq<u8>) {
    && |done| <= |output| && output[..|done|] == done
    && (pending != [] ==>
          |done| + 1 + |pending| <= |output| && output[|done| + 1..|done| + 1 + |pending|] == pending)
  }

  lemma ByteLaid(output: seq<u8>, done: seq<u8>, pending: seq<u8>, byte: u8, after: seq<u8>)
    requires Laid(output, done, pending) && |done| + 1 + |pending| < |after|
    requires |done| + 1 + |pending| <= |output| && output[..|done| + 1 + |pending|] == after[..|done| + 1 + |pending|]
    requires after[|done| + 1 + |pending|] == byte
    ensures Laid(after, done, pending + [byte])
  {
    var w := |done| + 1 + |pending|;
    assert after[..|done|] == after[..w][..|done|];
    assert after[|done| + 1..w] == after[..w][|done| + 1..] == pending;
    assert after[|done| + 1..w + 1] == after[|done| + 1..w] + [byte];
  }

  lemma BlockLaid(output: seq<u8>, done: seq<u8>, pending: seq<u8>)
    requires Laid(output, done, pending) && |done| < |output| && |pending| <= FULL_BLOCK
    ensures var code := (|pending| + 1) as u8;
            output[|done| := code][..|done| + 1 + |pending|] == done + [code] + pending
  {
    var code := (|pending| + 1) as u8;
    var after := output[|done| := code];
    assert after[..|done|] == output[..|done|];
    if pending != [] {
      assert after[|done| + 1..|done| + 1 + |pending|] == output[|done| + 1..|done| + 1 + |pending|];
    }
    assert after[..|done| + 1] == done + [code];
    assert after[..|done| + 1 + |pending|] == after[..|done| + 1] + after[|done| + 1..|done| + 1 + |pending|];
  }

  /** What is written and what is left still encode the whole. */
  ghost predicate Encodes(data: seq<u8>, done: seq<u8>, pending: seq<u8>, rest: seq<u8>) {
    Encode(data) == done + Encode(pending + rest)
  }

  lemma ByteTaken(data: seq<u8>, done: seq<u8>, pending: seq<u8>, read: nat)
    requires read < |data| && Encodes(data, done, pending, data[read..])
    ensures Encodes(data, done, pending + [data[read]], data[read + 1..])
    ensures |done| + 1 + |pending| < |Encode(data)|
  {
    hide Encode;
    assert pending + [data[read]] + data[read + 1..] == pending + data[read..];
  }

  lemma ZeroTaken(data: seq<u8>, done: seq<u8>, pending: seq<u8>, read: nat)
    requires read < |data| && data[read] == 0 && Pending(pending) && Encodes(data, done, pending, data[read..])
    ensures Encodes(data, done + [(|pending| + 1) as u8] + pending, [], data[read + 1..])
    ensures |done| < |Encode(data)|
  {
    assert data[read..] == [0] + data[read + 1..];
    ZeroEnds(pending, data[read + 1..]);
    Join(done, (|pending| + 1) as u8, pending, Encode(data[read + 1..]));
    assert [] + data[read + 1..] == data[read + 1..];
  }

  lemma FullTaken(data: seq<u8>, done: seq<u8>, pending: seq<u8>, read: nat)
    requires read <= |data| && |pending| == FULL_BLOCK && NonZero(pending) && Encodes(data, done, pending, data[read..])
    ensures Encodes(data, done + [(|pending| + 1) as u8] + pending, [], data[read..])
  {
    FullEnds(pending, data[read..]);
    Join(done, (|pending| + 1) as u8, pending, Encode(data[read..]));
    assert [] + data[read..] == data[read..];
  }

  lemma AllTaken(data: seq<u8>, done: seq<u8>, pending: seq<u8>)
    requires Pending(pending) && Encodes(data, done, pending, [])
    ensures Encode(data) == done + [(|pending| + 1) as u8] + pending
  {
    DataEnds(pending);
    Join(done, (|pending| + 1) as u8, pending, []);
    assert [(|pending| + 1) as u8] + pending + [] == [(|pending| + 1) as u8] + pending;
    assert done + [(|pending| + 1) as u8] + pending + [] == done + [(|pending| + 1) as u8] + pending;
  }

  /** Encode with back-patched code bytes: it succeeds exactly when the
      encoding fits. */
  method EncodeInto(input: seq<u8>, output: array<u8>) returns (ok: bool, length: nat)
    modifies output
    ensures ok <==> |Encode(input)| <= output.Length
    ensures ok ==> length == |Encode(input)| && output[..length] == Encode(input)
  {
    hide Encode, Laid, Encodes;
    var capacity := output.Length;
    if capacity == 0 { return false, 0; }
    var read, write, codeIndex, code := 0, 1, 0, 1;
    ghost var done: seq<u8>, pending: seq<u8> := [], [];
    NothingTaken(input, output[..]);
    while read < |input|
      invariant read <= |input| && codeIndex == |done| <= capacity
      invariant code == |pending| + 1 && write == codeIndex + code && (code > 1 ==> write <= capacity)
      invariant Pending(pending) && Encodes(input, done, pending, input[read..]) && Laid(output[..], done, pending)
    {
      if input[read] == 0 {
        ZeroTaken(input, done, pending, read);
        if codeIndex >= capacity { return false, 0; }
        BlockLaid(output[..], done, pending);
        output[codeIndex] := code as u8;
        done, pending := done + [code as u8] + pending, [];
        BlockStays(output[..], done);
        code, codeIndex, write, read := 1, write, write + 1, read + 1;
      } else {
        ByteTaken(input, done, pending, read);
        if write >= capacity { return false, 0; }
        ghost var before := output[..];
        output[write] := input[read];
        ByteLaid(before, done, pending, input[read], output[..]);
        pending := pending + [input[read]];
        write, read, code := write + 1, read + 1, code + 1;
        if code == 0xFF {
          FullTaken(input, done, pending, read);
          BlockLaid(output[..], done, pending);
          output[codeIndex] := code as u8;
          done, pending := done + [code as u8] + pending, [];
          BlockStays(output[..], done);
          code, codeIndex, write := 1, write, write + 1;
        }
      }
    }
    assert input[read..] == [];
    AllTaken(input, done, pending);
    if codeIndex >= capacity { return false, 0; }
    BlockLaid(output[..], done, pending);
    output[codeIndex] := code as u8;
    ok, length := true, write;
  }

  lemma NothingTaken(data: seq<u8>, output: seq<u8>)
    ensures Encodes(data, [], [], data[0..]) && Laid(output, [], [])
  {
    assert [] + data[0..] == data;
  }

  lemma BlockStays(output: seq<u8>, done: seq<u8>)
    requires |done| <= |output| && output[..|done|] == done
    ensures Laid(output, done, [])
  {
  }

  /** Decode into a buffer: it succeeds exactly when the input decodes and the
      result fits. */
  method DecodeInto(input: seq<u8>, output: array<u8>) returns (ok: bool, length: nat)
    modifies output
    ensures ok <==> Decode(input).Some? && |Decode(input).value| <= output.Length
    ensures ok ==> length == |Decode(input).value| && output[..length] == Decode(input).value
  {
    if |input| == 0 { return false, 0; }
    hide DecodeTail, Decode, Prepend;
    var capacity := output.Length;
    var read, write := 0, 0;
    DecodeStart(input);
    while read < |input|
      invariant read <= |input| && write <= capacity
      invariant Decode(input) == Prepend(output[..write], DecodeTail(input[read..]))
    {
      ghost var before := output[..write];
      var code := input[read];
      if code == 0 || read + code > |input| { DecodeFails(input, read); }
      if code == 0 { return false, 0; }
      var copyCount := code - 1;
      if copyCount > |input| - (read + 1) { return false, 0; }
      DecodeStep(before, input, read);
      read := read + 1;
      if copyCount > capacity - write { return false, 0; }
      Copy(input, read, copyCount, output, write);
      read, write := read + copyCount, write + copyCount;
      if code != 0xFF && read < |input| {
        if write >= capacity { return false, 0; }
        output[write] := 0;
        write := write + 1;
        assert output[..write] == before + input[read - copyCount..read] + [0];
      } else {
        assert output[..write] == before + input[read - copyCount..read] + [];
      }
    }
    DecodeEnds(input, output[..write]);
    ok, length := true, write;
  }

  method Copy(input: seq<u8>, from: nat, count: nat, output: array<u8>, to: nat)
    requires from + count <= |input| && to + count <= output.Length
    modifies output
    ensures output[..to + count] == old(output[..to]) + input[from..from + count]
  {
    for offset := 0 to count
      invariant output[..to + offset] == old(output[..to]) + input[from..from + offset]
    {
      output[to + offset] := input[from + offset];
      assert output[..to + offset + 1] == output[..to + offset] + [input[from + offset]];
    }
  }

  // ---- The host's loops ----

  /** The host's encoder: a growing buffer with back-patched code bytes. */
  method HostEncode(data: seq<u8>) returns (output: seq<u8>)
    ensures output == Encode(data)
  {
    hide Encode, Laid, Encodes;
    output := [0];
    var codeIndex, code := 0, 1;
    ghost var done: seq<u8>, pending: seq<u8> := [], [];
    NothingTaken(data, output);
    for read := 0 to |data|
      invariant codeIndex == |done| && code == |pending| + 1 && |output| == codeIndex + code
      invariant Pending(pending) && Encodes(data, done, pending, data[read..]) && Laid(output, done, pending)
    {
      var byte := data[read];
      if byte == 0 {
        ZeroTaken(data, done, pending, read);
        BlockLaid(output, done, pending);
        output := output[codeIndex := code as u8];
        done, pending := done + [code as u8] + pending, [];
        codeIndex := |output|;
        output, code := output + [0], 1;
        BlockStays(output, done);
      } else {
        ByteTaken(data, done, pending, read);
        ByteLaid(output, done, pending, byte, output + [byte]);
        pending := pending + [byte];
        output, code := output + [byte], code + 1;
        if code == 0xFF {
          FullTaken(data, done, pending, read + 1);
          BlockLaid(output, done, pending);
          output := output[codeIndex := code as u8];
          done, pending := done + [code as u8] + pending, [];
          codeIndex := |output|;
          output, code := output + [0], 1;
          BlockStays(output, done);
        }
      }
    }
    assert data[|data|..] == [];
    AllTaken(data, done, pending);
    BlockLaid(output, done, pending);
    output := output[codeIndex := code as u8];
    assert output[..|output|] == output;
  }

  /** The host's decoder. */
  method HostDecode(encoded: seq<u8>) returns (r: Option<seq<u8>>)
    ensures r == Decode(encoded)
  {
    if |encoded| == 0 { return None; }
    var output: seq<u8> := [];
    var index := 0;
    DecodeStart(encoded);
    while index < |encoded|
      invariant index <= |encoded|
      invariant Decode(encoded) == Prepend(output, DecodeTail(encoded[index..]))
    {
      var code := encoded[index];
      ghost var tail := encoded[index..];
      assert tail[0] == code;
      if code == 0 { return None; }
      var blockEnd := index + code;
      if blockEnd > |encoded| { return None; }
      DecodeStep(output, encoded, index);
      output := output + encoded[index + 1..blockEnd];
      index := blockEnd;
      if code != 0xFF && index < |encoded| {
        output := output + [0];
      } else {
        assert output + [] == output;
      }
    }
    assert output + [] == output;
    r := Some(output);
  }
}
