/** Quest status buffers: the raw bytes of a quest array reinterpreted as
    little-endian 16-bit words (`Buffer.BlockCopy` into a `ushort[]` of
    `(n + 1) / 2` elements), and the scan over a player's quest pointers. */
module QuestDecoding {
  import opened Wrappers
  import opened ProcessMemory

  type ushort = x: int | 0 <= x < 0x1_0000

  /** The high byte of word `k`: `b[2k+1]`, or 0 past the end (the zeroed
      tail of the word array). */
  function HighByte(bytes: seq<byte>, k: nat): byte {
    if 2 * k + 1 < |bytes| then bytes[2 * k + 1] else 0
  }

  /** Word `k` is `b[2k] | b[2k+1] << 8`; a trailing odd byte is
      zero-extended. */
  function DecodeQuestWords(bytes: seq<byte>): (r: seq<ushort>)
    ensures |r| == (|bytes| + 1) / 2
    ensures forall k :: 0 <= k < |r| ==> r[k] == bytes[2 * k] as int + 0x100 * HighByte(bytes, k) as int
    decreases |bytes|
  {
    if |bytes| == 0 then []
    else if |bytes| == 1 then [bytes[0]]
    else
      var rest := DecodeQuestWords(bytes[2..]);
      assert forall k :: 0 <= k < |rest| ==> HighByte(bytes[2..], k) == HighByte(bytes, k + 1);
      [bytes[0] as int + 0x100 * bytes[1] as int] + rest
  }

  /** The inverse direction: each word as its low byte then its high byte. */
  function EncodeQuestWords(words: seq<ushort>): (r: seq<byte>)
    ensures |r| == 2 * |words|
  {
    if words == [] then []
    else [words[0] % 0x100, words[0] / 0x100] + EncodeQuestWords(words[1..])
  }

  /** Decoding the bytes of a word array gives the words back. */
  lemma {:induction false} DecodeEncode(words: seq<ushort>)
    ensures DecodeQuestWords(EncodeQuestWords(words)) == words
  {
    if words != [] {
      var e := EncodeQuestWords(words);
      assert e[2..] == EncodeQuestWords(words[1..]);
      DecodeEncode(words[1..]);
    }
  }

  /** Re-encoding decoded words gives the bytes back, with one zero byte
      appended when their number was odd. */
  lemma {:induction false} EncodeDecode(bytes: seq<byte>)
    ensures EncodeQuestWords(DecodeQuestWords(bytes)) ==
            if |bytes| % 2 == 0 then bytes else bytes + [0]
  {
    if |bytes| >= 2 {
      EncodeDecode(bytes[2..]);
      var d := DecodeQuestWords(bytes);
      assert d[1..] == DecodeQuestWords(bytes[2..]);
      if |bytes| % 2 == 0 {
        assert bytes == bytes[..2] + bytes[2..];
      } else {
        assert bytes + [0] == bytes[..2] + (bytes[2..] + [0]);
      }
    }
  }

  /** Reading one quest array: its header, then the `Length` bytes it names. */
  function ReadQuestBuffer(mem: Memory, questPointer: Address): Option<seq<ushort>> {
    match ReadQuestArray(mem, questPointer)
    case None => None
    case Some(questArray) =>
      match ReadBytes(mem, questArray.buffer, questArray.length)
      case None => None
      case Some(questBytes) => Some(DecodeQuestWords(questBytes))
  }

  /** The state of the quest loop after some slots: the buffers added so far,
      and whether every read succeeded (a failed read ends the loop with an
      exception). */
  datatype QuestScan = QuestScan(buffers: map<int, seq<ushort>>, ok: bool)

  /** The quest loop over the first `n` quest pointers: null pointers are
      skipped, each other one adds its decoded buffer under its index. */
  function ScanQuests(mem: Memory, quests: seq<Address>, n: nat): (r: QuestScan)
    requires n <= |quests|
    decreases n
  {
    if n == 0 then QuestScan(map[], true)
    else
      var prev := ScanQuests(mem, quests, n - 1);
      if !prev.ok || quests[n - 1] == 0 then prev
      else
        match ReadQuestBuffer(mem, quests[n - 1])
        case None => QuestScan(prev.buffers, false)
        case Some(buffer) => QuestScan(prev.buffers[n - 1 := buffer], true)
  }

  /** Keys of the scan are exactly the scanned non-null slots (all of them
      when every read succeeded), each holding its decoded buffer. */
  lemma {:induction false} ScanQuestsContents(mem: Memory, quests: seq<Address>, n: nat)
    requires n <= |quests|
    ensures forall i :: i in ScanQuests(mem, quests, n).buffers ==>
              0 <= i < n && quests[i] != 0 && ReadQuestBuffer(mem, quests[i]) == Some(ScanQuests(mem, quests, n).buffers[i])
    ensures ScanQuests(mem, quests, n).ok ==>
              forall i :: 0 <= i < n ==> (i in ScanQuests(mem, quests, n).buffers <==> quests[i] != 0)
  {
    if n > 0 {
      ScanQuestsContents(mem, quests, n - 1);
    }
  }

  /** Once a read has failed nothing more is added. */
  lemma {:induction false} ScanQuestsStopsAtFailure(mem: Memory, quests: seq<Address>, m: nat, n: nat)
    requires m <= n <= |quests|
    requires !ScanQuests(mem, quests, m).ok
    ensures ScanQuests(mem, quests, n) == ScanQuests(mem, quests, m)
  {
    if n > m {
      ScanQuestsStopsAtFailure(mem, quests, m, n - 1);
    }
  }

  /** The scan succeeds exactly when every non-null quest pointer can be
      read. */
  lemma {:induction false} ScanQuestsOk(mem: Memory, quests: seq<Address>, n: nat)
    requires n <= |quests|
    ensures ScanQuests(mem, quests, n).ok <==>
            forall i :: 0 <= i < n && quests[i] != 0 ==> ReadQuestBuffer(mem, quests[i]).Some?
  {
    if n > 0 {
      ScanQuestsOk(mem, quests, n - 1);
    }
  }
}
