/** The binary mixed-radix channel identifier of the anode plotter (six bits
    of channel id, then eight bits each of chip id, io channel and io group),
    the tile/io-channel correspondence of a 2x2 module (four UART channels per
    tile, eight tiles per io group), and the fields read from the name of a
    chip's configuration file. */
module AnodeCodec {
  import opened Common

  /** `unique_channel_id_from_identifiers` */
  function UniqueId(ioGroup: int, ioChannel: int, chipId: int, channelId: int): int
  {
    channelId + 64 * (chipId + 256 * (ioChannel + 256 * ioGroup))
  }

  /** One row of the packet table, as far as the identifier reads it. */
  datatype PacketFields = PacketFields(ioGroup: int, ioChannel: int, chipId: int, channelId: int)

  /** `unique_channel_id(d)`: the same identifier written Horner-style over a
      packet record. */
  function RecordUniqueId(d: PacketFields): (u: int)
    ensures u == UniqueId(d.ioGroup, d.ioChannel, d.chipId, d.channelId)
  {
    assert ((d.ioGroup * 256 + d.ioChannel) * 256 + d.chipId) * 64 ==
      64 * (d.chipId + 256 * (d.ioChannel + 256 * d.ioGroup));
    ((d.ioGroup * 256 + d.ioChannel) * 256 + d.chipId) * 64 + d.channelId
  }

  /** `unique_2_channel_id` */
  function ChannelIdOf(unique: int): (r: int)
    ensures 0 <= r < 64
  {
    unique % 64
  }

  /** `unique_2_chip_id` */
  function ChipIdOf(unique: int): (r: int)
    ensures 0 <= r < 256
  {
    (unique / 64) % 256
  }

  /** `unique_2_io_channel` */
  function IoChannelOf(unique: int): (r: int)
    ensures 0 <= r < 256
  {
    (unique / (64 * 256)) % 256
  }

  /** `unique_2_io_group` */
  function IoGroupOf(unique: int): (r: int)
    ensures 0 <= r < 256
  {
    (unique / (64 * 256 * 256)) % 256
  }

  /** `unique_2_chip_key_string` */
  function ChipKeyStringOf(unique: int): string
  {
    IntToString(IoGroupOf(unique)) + "-" + IntToString(IoChannelOf(unique)) + "-" + IntToString(ChipIdOf(unique))
  }

  predicate InRange(ioGroup: int, ioChannel: int, chipId: int, channelId: int)
  {
    0 <= channelId < 64 && 0 <= chipId < 256 && 0 <= ioChannel < 256 && 0 <= ioGroup < 256
  }

  /** The four decoders invert the encoder within range. */
  lemma RoundTrip(ioGroup: int, ioChannel: int, chipId: int, channelId: int)
    requires InRange(ioGroup, ioChannel, chipId, channelId)
    ensures var u := UniqueId(ioGroup, ioChannel, chipId, channelId);
      ChannelIdOf(u) == channelId && ChipIdOf(u) == chipId &&
      IoChannelOf(u) == ioChannel && IoGroupOf(u) == ioGroup
  {
    var u := UniqueId(ioGroup, ioChannel, chipId, channelId);
    DivModUnique(chipId + 256 * (ioChannel + 256 * ioGroup), channelId, 64);
    DivModUnique(ioChannel + 256 * ioGroup, chipId, 256);
    assert u == (ioChannel + 256 * ioGroup) * 16384 + (channelId + 64 * chipId);
    DivModUnique(ioChannel + 256 * ioGroup, channelId + 64 * chipId, 16384);
    DivModUnique(ioGroup, ioChannel, 256);
    assert u == ioGroup * 4194304 + (channelId + 64 * chipId + 16384 * ioChannel);
    DivModUnique(ioGroup, channelId + 64 * chipId + 16384 * ioChannel, 4194304);
    DivModUnique(0, ioGroup, 256);
  }

  /** The chip-key string of an encoded identifier is the dash-joined key of
      its chip, and reads back as that key. */
  lemma ChipKeyStringOfUnique(ioGroup: int, ioChannel: int, chipId: int, channelId: int)
    requires InRange(ioGroup, ioChannel, chipId, channelId)
    ensures var s := ChipKeyStringOf(UniqueId(ioGroup, ioChannel, chipId, channelId));
      s == KeyString(ChipKey(ioGroup, ioChannel, chipId)) &&
      ParseKeyString(s) == Some(ChipKey(ioGroup, ioChannel, chipId))
  {
    RoundTrip(ioGroup, ioChannel, chipId, channelId);
    KeyStringRoundTrip(ChipKey(ioGroup, ioChannel, chipId));
  }

  // ---------------------------------------------------------------------
  // Tiles and io channels

  /** `tile_number_to_io_channels`: the four consecutive UART channels of a
      tile. */
  function TileIoChannels(tile: int): (r: seq<int>)
    ensures |r| == 4 && StrictlyIncreasing(r)
    ensures forall c :: c in r <==> 4 * (tile - 1) < c <= 4 * tile
  {
    [(tile - 1) * 4 + 1, (tile - 1) * 4 + 2, (tile - 1) * 4 + 3, (tile - 1) * 4 + 4]
  }

  /** The tile that owns an io channel of a module, or -1 for a channel
      outside 1..32. */
  function TileOf(ioChannel: int): (t: int)
  {
    if 1 <= ioChannel <= 32 then (ioChannel - 1) / 4 + 1 else -1
  }

  /** A channel belongs to tile t (of the eight) exactly when TileOf names
      t; so every channel 1..32 lies in exactly one tile and the others in
      none. */
  lemma TileMembership(tile: int, ioChannel: int)
    requires 1 <= tile <= 8
    ensures ioChannel in TileIoChannels(tile) <==> (1 <= ioChannel <= 32 && TileOf(ioChannel) == tile)
  {
    if ioChannel in TileIoChannels(tile) {
      DivModUnique(tile - 1, ioChannel - 1 - 4 * (tile - 1), 4);
    }
    if 1 <= ioChannel <= 32 && TileOf(ioChannel) == tile {
      var q := (ioChannel - 1) / 4;
      assert ioChannel - 1 == q * 4 + (ioChannel - 1) % 4;
    }
  }

  /** `io_channel_to_tile_number`: searches the tiles 1..8 in order and
      returns the first one listing the channel, or -1. */
  method IoChannelToTile(ioChannel: int) returns (tile: int)
    ensures tile == TileOf(ioChannel)
    ensures tile != -1 ==> 1 <= tile <= 8 && ioChannel in TileIoChannels(tile)
  {
    for t := 1 to 9
      invariant forall t' :: 1 <= t' < t ==> ioChannel !in TileIoChannels(t')
    {
      if ioChannel in TileIoChannels(t) {
        TileMembership(t, ioChannel);
        return t;
      }
    }
    if 1 <= ioChannel <= 32 {
      TileMembership(TileOf(ioChannel), ioChannel);
    }
    return -1;
  }

  /** Python's `int(a / b)` for a positive divisor: true division
      truncated toward zero. */
  function TruncDiv(a: int, b: int): (q: int)
    requires b > 0
    ensures a >= 0 ==> q == a / b
  {
    if a >= 0 then a / b else -((-a) / b)
  }

  /** The inline tile formula `int((ioc-1)/4)+1`. */
  function InlineTile(ioChannel: int): int
  {
    TruncDiv(ioChannel - 1, 4) + 1
  }

  /** The inline formula agrees with the tile search on the module's
      channels 1..32. */
  lemma InlineTileAgrees(ioChannel: int)
    requires 1 <= ioChannel <= 32
    ensures InlineTile(ioChannel) == TileOf(ioChannel)
  {
  }

  /** Outside 1..32 the two differ: channel 0 is put in tile 1 by the
      inline formula (truncation toward zero) but in no tile by the search. */
  lemma InlineTileDiffersAtZero()
    ensures InlineTile(0) == 1 && TileOf(0) == -1
  {
    assert TruncDiv(-1, 4) == 0;
  }

  // ---------------------------------------------------------------------
  // Configuration file names

  /** The io group, io channel and chip id that `parse_asic_config` reads
      from a file name split at '-': the fourth, third and second fields from
      the end, or one further left when the last field is 'mod.json'.
      A name with too few fields (IndexError) or a non-integer field
      (ValueError) gives None. */
  function ParseFileName(filename: string): (r: Option<ChipKey>)
  {
    var f := Split(filename, '-');
    var shift := if f[|f| - 1] == "mod.json" then 1 else 0;
    if |f| < 4 + shift then None
    else
      match (ParseInt(f[|f| - 4 - shift]), ParseInt(f[|f| - 3 - shift]), ParseInt(f[|f| - 2 - shift]))
      case (Some(g), Some(ch), Some(id)) => Some(ChipKey(g, ch, id))
      case _ => None
  }

  predicate DashFree(s: string)
  {
    '-' !in s
  }

  /** A name `<prefix>-<key>-<tail>` with a dash-free tail other than
      'mod.json' names the key. */
  lemma ParsePlainFileName(prefix: string, k: ChipKey, tail: string)
    requires NonNegativeKey(k) && DashFree(tail) && tail != "mod.json"
    ensures ParseFileName(prefix + "-" + KeyString(k) + "-" + tail) == Some(k)
  {
    ParseKeyFields(prefix, k, [tail]);
    assert Join([tail], '-') == tail;
    ParseIntOfString(k.ioGroup);
    ParseIntOfString(k.ioChannel);
    ParseIntOfString(k.chipId);
  }

  /** A name `<prefix>-<key>-<stamp>-mod.json` with a dash-free stamp names
      the key too: the fields are read one position further left. */
  lemma ParseModFileName(prefix: string, k: ChipKey, stamp: string)
    requires NonNegativeKey(k) && DashFree(stamp)
    ensures ParseFileName(prefix + "-" + KeyString(k) + "-" + stamp + "-mod.json") == Some(k)
  {
    var rest := [stamp, "mod.json"];
    assert Join(rest, '-') == stamp + "-mod.json" by {
      assert rest[1..] == ["mod.json"];
    }
    var name := prefix + "-" + KeyString(k) + "-" + stamp + "-mod.json";
    assert name == prefix + "-" + KeyString(k) + "-" + Join(rest, '-');
    ParseKeyFields(prefix, k, rest);
    var f := Split(name, '-');
    assert f == Split(prefix, '-') + KeyFields(k) + rest;
    assert f[|f| - 1] == "mod.json";
    assert f[|f| - 5] == IntToString(k.ioGroup);
    assert f[|f| - 4] == IntToString(k.ioChannel);
    assert f[|f| - 3] == IntToString(k.chipId);
    ParseIntOfString(k.ioGroup);
    ParseIntOfString(k.ioChannel);
    ParseIntOfString(k.chipId);
  }

  /** Helper: the three decimal fields of a key. */
  function KeyFields(k: ChipKey): (f: seq<string>)
    ensures |f| == 3 && Join(f, '-') == KeyString(k)
  {
    var f := [IntToString(k.ioGroup), IntToString(k.ioChannel), IntToString(k.chipId)];
    assert f[1..][1..] == [f[2]];
    f
  }

  /** Helper: splitting `<prefix>-<key>-<rest>` gives the fields of the
      prefix, the key's three decimal fields and the fields of `rest`. */
  lemma ParseKeyFields(prefix: string, k: ChipKey, rest: seq<string>)
    requires NonNegativeKey(k) && |rest| >= 1
    requires forall i :: 0 <= i < |rest| ==> DashFree(rest[i])
    ensures Split(prefix + "-" + KeyString(k) + "-" + Join(rest, '-'), '-') ==
      Split(prefix, '-') + KeyFields(k) + rest
  {
    var fields := KeyFields(k) + rest;
    assert forall i :: 0 <= i < |fields| ==> '-' !in fields[i] by {
      NoDashInDigits(KeyFields(k)[0]);
      NoDashInDigits(KeyFields(k)[1]);
      NoDashInDigits(KeyFields(k)[2]);
    }
    SplitJoin(fields, '-');
    JoinConcat(KeyFields(k), rest, '-');
    assert prefix + "-" + KeyString(k) + "-" + Join(rest, '-') == prefix + ['-'] + Join(fields, '-');
    SplitAround(prefix, '-', Join(fields, '-'));
  }
}
