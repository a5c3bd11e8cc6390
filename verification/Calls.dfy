/** The host's commands and the numbers they are given. */
module Calls {
  import opened Wire
  import opened Frame

  const SEQUENCES: nat := 0x1_0000

  /** next(self._seq) & 0xFFFF for the n-th command. */
  function SeqOf(n: nat): u16 {
    n % SEQUENCES
  }

  /** A command with its count and its payload, the command identifier in front. */
  datatype Call = Call(number: nat, args: seq<byte>)

  function PacketOf(call: Call): Packet {
    Packet(COMMAND, SeqOf(call.number), call.args)
  }

  function PacketsOf(calls: seq<Call>): (packets: seq<Packet>)
    ensures |packets| == |calls| && forall i | 0 <= i < |calls| :: packets[i] == PacketOf(calls[i])
  {
    if calls == [] then [] else [PacketOf(calls[0])] + PacketsOf(calls[1..])
  }

  lemma PacketsJoin(a: seq<Call>, b: seq<Call>)
    ensures PacketsOf(a + b) == PacketsOf(a) + PacketsOf(b)
  {
    hide PacketOf, PacketsOf;
  }

  /** No two commands have the same count. */
  predicate Unique(calls: seq<Call>) {
    forall i, j | 0 <= i < j < |calls| :: calls[i].number != calls[j].number
  }

  /** Within one turn of the counter a sequence number stands for one command. */
  lemma SameSequence(m: nat, n: nat)
    requires SeqOf(m) == SeqOf(n) && n < m + SEQUENCES && m < n + SEQUENCES
    ensures m == n
  {
    assert m == SEQUENCES * (m / SEQUENCES) + SeqOf(m) && n == SEQUENCES * (n / SEQUENCES) + SeqOf(n);
  }
}
