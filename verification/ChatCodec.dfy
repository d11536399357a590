/** SC_CHAT on the wire: the server's clipping and encoder, and the decoders of both clients. */
module ChatCodec {
  import opened Bytes
  import opened Framing
  import opened Lobby

  /** senderId, then the name and the text each behind its length. */
  function ChatBody(senderId: nat, name: seq<byte>, text: seq<byte>): (b: seq<byte>)
    ensures |b| == 8 + |name| + |text|
  {
    U32(senderId) + U16(|name|) + name + U16(|text|) + text
  }

  datatype ParsedChat = NotAChat | ParsedChat(senderId: nat, name: seq<byte>, text: seq<byte>)

  /** What a body says, trailing bytes ignored. */
  function ReadChat(body: seq<byte>): ParsedChat {
    if |body| < 8 then NotAChat
    else
      var nameLen := ReadU16(body, 4);
      if 6 + nameLen + 2 > |body| then NotAChat
      else
        var textLen := ReadU16(body, 6 + nameLen);
        if 8 + nameLen + textLen > |body| then NotAChat
        else ParsedChat(ReadU32(body, 0), body[6..6 + nameLen], body[8 + nameLen..8 + nameLen + textLen])
  }

  /** Reading what was written, whatever bytes follow. */
  lemma ReadChatOfChatBody(senderId: nat, name: seq<byte>, text: seq<byte>, more: seq<byte>)
    requires senderId < 0x1_0000_0000 && |name| < 65536 && |text| < 65536
    ensures ReadChat(ChatBody(senderId, name, text) + more) == ParsedChat(senderId, name, text)
  {
    assert U32(senderId)[0..4] == U32(senderId);
    ReadU32OfU32(senderId, U32(senderId), 0);
    ReadBackU16(|name|);
    ReadBackU16(|text|);
    ReadLayout(U32(senderId), U16(|name|), name, U16(|text|), text, more);
  }

  lemma ReadBackU16(v: nat)
    requires v < 65536
    ensures ReadU16(U16(v), 0) == v
  {
    assert U16(v)[0..2] == U16(v);
    ReadU16OfU16(v, U16(v), 0);
  }

  lemma ReadLayout(id: seq<byte>, nameLen: seq<byte>, name: seq<byte>, textLen: seq<byte>, text: seq<byte>, more: seq<byte>)
    requires |id| == 4 && |nameLen| == 2 && |textLen| == 2
    requires ReadU16(nameLen, 0) == |name| && ReadU16(textLen, 0) == |text|
    ensures ReadChat(id + nameLen + name + textLen + text + more) == ParsedChat(ReadU32(id, 0), name, text)
  {
    var b := id + nameLen + name + textLen + text + more;
    Layout(id, nameLen, name, textLen, text, more);
    ReadInSlice(b, 0, 4, 0);
    ReadInSlice(b, 4, 6, 0);
    ReadInSlice(b, 6 + |name|, 8 + |name|, 0);
  }

  /** Where the fields of a chat body lie. */
  lemma Layout(id: seq<byte>, nameLen: seq<byte>, name: seq<byte>, textLen: seq<byte>, text: seq<byte>, more: seq<byte>)
    requires |id| == 4 && |nameLen| == 2 && |textLen| == 2
    ensures var b := id + nameLen + name + textLen + text + more;
            var n := |name|;
            && b[0..4] == id && b[4..6] == nameLen && b[6..6 + n] == name
            && b[6 + n..8 + n] == textLen && b[8 + n..8 + n + |text|] == text
  {
  }

  /** A body that is read is, up to trailing bytes, the body written for what was read. */
  lemma ChatBodyOfReadChat(body: seq<byte>)
    requires ReadChat(body).ParsedChat?
    ensures var c := ReadChat(body);
            ChatBody(c.senderId, c.name, c.text) == body[..8 + |c.name| + |c.text|]
  {
    var c := ReadChat(body);
    var n, m := |c.name|, |c.text|;
    ReadInSlice(body, 0, 4, 0);
    ReadInSlice(body, 4, 6, 0);
    ReadInSlice(body, 6 + n, 8 + n, 0);
    U32OfReadU32(body[0..4]);
    U16OfReadU16(body[4..6]);
    U16OfReadU16(body[6 + n..8 + n]);
    assert body[..8 + n + m] == body[0..4] + body[4..6] + body[6..6 + n] + body[6 + n..8 + n] + body[8 + n..8 + n + m];
  }

  /** BroadcastChat and SendChat: for every name that passes the guard and every message, the clipped
      packet fits, is never dropped for its size, and the client reads back id, name and clipped text. */
  lemma ClippedChatArrives(senderId: nat, name: seq<byte>, text: seq<byte>)
    requires senderId < 0x1_0000_0000 && CHAT_OVERHEAD + |name| < MAX_PACKET_SIZE
    ensures var body := ChatBody(senderId, name, Clip(name, text));
            && HEADER_SIZE + |body| <= MAX_PACKET_SIZE
            && ReadChat(body) == ParsedChat(senderId, name, Clip(name, text))
    ensures Clip(name, text) <= text
    ensures Clip(name, text) == text <==> CHAT_OVERHEAD + |name| + |text| <= MAX_PACKET_SIZE
    ensures Clip(name, text) != text ==> HEADER_SIZE + |ChatBody(senderId, name, Clip(name, text))| == MAX_PACKET_SIZE
  {
    var clipped := Clip(name, text);
    ReadChatOfChatBody(senderId, name, clipped, []);
    assert ChatBody(senderId, name, clipped) + [] == ChatBody(senderId, name, clipped);
  }

  method CopyTo(dst: array<byte>, offset: nat, src: seq<byte>)
    requires offset + |src| <= dst.Length
    modifies dst
    ensures dst[..] == old(dst[..offset]) + src + old(dst[offset + |src|..])
  {
    var i := 0;
    while i < |src|
      invariant 0 <= i <= |src|
      invariant dst[..] == old(dst[..offset]) + src[..i] + old(dst[offset + i..])
    {
      dst[offset + i] := src[i];
      i := i + 1;
    }
  }

  /** Player::SendChat: fills the body buffer at a moving offset. */
  method EncodeChat(senderId: nat, senderName: seq<byte>, msg: seq<byte>) returns (sent: bool, body: seq<byte>)
    requires senderId < 0x1_0000_0000
    ensures sent <==> HEADER_SIZE + 8 + |senderName| + |msg| <= MAX_PACKET_SIZE
    ensures sent ==> body == ChatBody(senderId, senderName, msg)
  {
    var bodySize := 4 + 2 + |senderName| + 2 + |msg|;
    if bodySize + HEADER_SIZE > MAX_PACKET_SIZE {
      return false, [];
    }
    var buffer := new byte[bodySize](_ => 0);
    var offset := 0;
    CopyTo(buffer, offset, U32(senderId));
    offset := offset + 4;
    CopyTo(buffer, offset, U16(|senderName|));
    offset := offset + 2;
    if |senderName| > 0 {
      CopyTo(buffer, offset, senderName);
      offset := offset + |senderName|;
    }
    assert buffer[..offset] == U32(senderId) + U16(|senderName|) + senderName;
    CopyTo(buffer, offset, U16(|msg|));
    offset := offset + 2;
    if |msg| > 0 {
      CopyTo(buffer, offset, msg);
    }
    return true, buffer[..];
  }

  /** ParseServerChat of the console client: out-parameters filled as the offset moves. */
  method ParseServerChat(body: seq<byte>) returns (ok: bool, senderId: nat, senderName: seq<byte>, message: seq<byte>)
    ensures ok <==> ReadChat(body).ParsedChat?
    ensures ok ==> ReadChat(body) == ParsedChat(senderId, senderName, message)
  {
    ok, senderId, senderName, message := false, 0, [], [];
    if |body| < 8 {
      return;
    }
    var offset := 0;
    var size := |body|;
    senderId := ReadU32(body, offset);
    offset := offset + 4;
    var nameLen := ReadU16(body, offset);
    offset := offset + 2;
    if offset + nameLen + 2 > size {
      return;
    }
    senderName := body[offset..offset + nameLen];
    offset := offset + nameLen;
    var msgLen := ReadU16(body, offset);
    offset := offset + 2;
    if offset + msgLen > size {
      return;
    }
    message := body[offset..offset + msgLen];
    ok := true;
  }

  lemma SliceOfSlice(b: seq<byte>, from: nat, to: nat, i: nat, j: nat)
    requires from <= to <= |b| && i <= j <= to - from
    ensures b[from..to][i..j] == b[from + i..from + j]
  {
    forall k | 0 <= k < j - i
      ensures b[from..to][i..j][k] == b[from + i..from + j][k]
    {
      assert b[from..to][i + k] == b[from + i + k];
    }
  }

  /** The same reading, done with offsets into the buffer the body lies in. */
  function ReadChatAt(b: seq<byte>, from: nat, to: nat): ParsedChat
    requires from <= to <= |b|
  {
    if to - from < 8 then NotAChat
    else
      var name := from + 6;
      var nameLen := ReadU16(b, from + 4);
      if name + nameLen + 2 > to then NotAChat
      else
        var text := name + nameLen + 2;
        var textLen := ReadU16(b, name + nameLen);
        if text + textLen > to then NotAChat
        else ParsedChat(ReadU32(b, from), b[name..name + nameLen], b[text..text + textLen])
  }

  lemma ReadChatInside(b: seq<byte>, from: nat, to: nat)
    requires from <= to <= |b|
    ensures ReadChatAt(b, from, to) == ReadChat(b[from..to])
  {
    if to - from >= 8 {
      ReadInSlice(b, from, to, 0);
      ReadInSlice(b, from, to, 4);
      var n := ReadU16(b, from + 4);
      if n + 8 <= to - from {
        ReadInSlice(b, from, to, 6 + n);
        var m := ReadU16(b, from + 6 + n);
        if 8 + n + m <= to - from {
          SliceOfSlice(b, from, to, 6, 6 + n);
          SliceOfSlice(b, from, to, 8 + n, 8 + n + m);
        }
      }
    }
  }

  /** HandleServerChat of the Unity client, which reads the body inside the whole packet. */
  method HandleServerChat(buffer: seq<byte>, bodyOffset: nat, bodySize: nat)
    returns (ok: bool, senderId: nat, senderName: seq<byte>, message: seq<byte>)
    requires bodyOffset + bodySize <= |buffer|
    ensures ok <==> ReadChat(buffer[bodyOffset..bodyOffset + bodySize]).ParsedChat?
    ensures ok ==> ReadChat(buffer[bodyOffset..bodyOffset + bodySize]) == ParsedChat(senderId, senderName, message)
  {
    ok, senderId, senderName, message := false, 0, [], [];
    var offset := bodyOffset;
    var end := bodyOffset + bodySize;
    ReadChatInside(buffer, bodyOffset, end);
    if bodySize < 8 {
      return;
    }
    senderId := ReadU32(buffer, offset);
    offset := offset + 4;
    var nameLen := ReadU16(buffer, offset);
    offset := offset + 2;
    if offset + nameLen + 2 > end {
      return;
    }
    senderName := if nameLen > 0 then buffer[offset..offset + nameLen] else [];
    offset := offset + nameLen;
    var msgLen := ReadU16(buffer, offset);
    offset := offset + 2;
    if offset + msgLen > end {
      return;
    }
    message := if msgLen > 0 then buffer[offset..offset + msgLen] else [];
    ok := true;
  }
}
