/** The decimal mixed-radix channel identifier shared by the threshold,
    pedestal and trigger-rate scripts: two decimal digits of channel id,
    then three each of chip id, io channel and io group. The three scripts
    carry their own copies of the encoder and of those decoders they use,
    written slightly differently but computing the same values on
    non-negative integers; they are modelled once here. */
module DecimalCodec {
  import opened Common

  /** `unique_channel_id(io_group, io_channel, chip_id, channel_id)` */
  function UniqueChannelId(ioGroup: int, ioChannel: int, chipId: int, channelId: int): int
  {
    channelId + 100 * (chipId + 1000 * (ioChannel + 1000 * ioGroup))
  }

  /** `from_unique_to_channel_id` */
  function ChannelIdOf(unique: int): (r: int)
    ensures 0 <= r < 100
  {
    unique % 100
  }

  /** `from_unique_to_chip_id` */
  function ChipIdOf(unique: int): (r: int)
    ensures 0 <= r < 1000
  {
    (unique / 100) % 1000
  }

  /** `from_unique_to_chip_key` */
  function ChipKeyOf(unique: int): (r: ChipKey)
    ensures 0 <= r.ioGroup < 1000 && 0 <= r.ioChannel < 1000 && 0 <= r.chipId < 1000
    ensures r.chipId == ChipIdOf(unique)
  {
    ChipKey((unique / 100000000) % 1000, (unique / 100000) % 1000, (unique / 100) % 1000)
  }

  /** The field ranges within which the identifier is unambiguous. */
  predicate InRange(ioGroup: int, ioChannel: int, chipId: int, channelId: int)
  {
    0 <= channelId < 100 && 0 <= chipId < 1000 && 0 <= ioChannel < 1000 && 0 <= ioGroup < 1000
  }

  /** Decoding an encoded identifier gives back every field. */
  lemma RoundTrip(ioGroup: int, ioChannel: int, chipId: int, channelId: int)
    requires InRange(ioGroup, ioChannel, chipId, channelId)
    ensures var u := UniqueChannelId(ioGroup, ioChannel, chipId, channelId);
      ChannelIdOf(u) == channelId && ChipIdOf(u) == chipId &&
      ChipKeyOf(u) == ChipKey(ioGroup, ioChannel, chipId)
  {
    var u := UniqueChannelId(ioGroup, ioChannel, chipId, channelId);
    DivModUnique(chipId + 1000 * (ioChannel + 1000 * ioGroup), channelId, 100);
    DivModUnique(ioChannel + 1000 * ioGroup, chipId, 1000);
    DivModUnique(ioGroup, ioChannel, 1000);
    assert u == (ioChannel + 1000 * ioGroup) * 100000 + (channelId + 100 * chipId);
    DivModUnique(ioChannel + 1000 * ioGroup, channelId + 100 * chipId, 100000);
    assert u == ioGroup * 100000000 + (channelId + 100 * chipId + 100000 * ioChannel);
    DivModUnique(ioGroup, channelId + 100 * chipId + 100000 * ioChannel, 100000000);
    DivModUnique(0, ioGroup, 1000);
  }

  /** Within range, distinct field tuples get distinct identifiers. */
  lemma Injective(g1: int, ch1: int, id1: int, n1: int, g2: int, ch2: int, id2: int, n2: int)
    requires InRange(g1, ch1, id1, n1) && InRange(g2, ch2, id2, n2)
    requires UniqueChannelId(g1, ch1, id1, n1) == UniqueChannelId(g2, ch2, id2, n2)
    ensures g1 == g2 && ch1 == ch2 && id1 == id2 && n1 == n2
  {
    RoundTrip(g1, ch1, id1, n1);
    RoundTrip(g2, ch2, id2, n2);
  }
}
