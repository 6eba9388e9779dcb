# LArPix tile checkout scripts: a Dafny model

This project models the logic of the checkout and quality-control scripts
for LArPix-v2 pixel tiles read out through a PACMAN controller board:

- **UART link discovery.** `map_uart_links_qc.py` discovers the hydra
  network of daisy-chained chips on a tile, in three stages:
  - `get_good_roots` claims the root chip of each io channel.
  - `init_initial_network` walks each planned chain out from its root:
    every chip is claimed through the reset key (chip id 1) and renamed,
    the masks are pointed one hop at a time, and the chain is then
    silenced from the far end.
  - `test_network` walks all chains again in lockstep, one hop per round.
    It reads each hop back once and records good links and one-sided
    excluded links.
  - `test_chip` probes the grid neighbours of a chip that are not on its
    chain. Each probe snapshots the configurations, isolates the
    neighbour, reads it back and restores the snapshots, with at most
    two more restores.
- **Quality-control scripts:**
  - the decimal and binary `unique_channel_id` codecs;
  - the disabled-channel lists and the CSA-enable / channel-mask
    settings derived from them;
  - the pixel-trim toggling state machine `toggle_trim`;
  - the pedestal configuration, its diff tolerance and its
    disabled-list merge;
  - the trigger-rate test's forbidden list;
  - the configuration loader `enforce_loaded_config.py`;
  - the network descriptor generator `generate_config.py`;
  - the base configuration in `base.py`;
  - the saturating `threshold_global` increment.

Each module of the model follows one script:

| module | file | script |
|---|---|---|
| `Common` | common.dfy | shared data: chip keys, disabled-list keys, routed channels, `str`/`int` and `split('-')` |
| `DecimalCodec` | channel_codec.dfy | the base 100/1000 codec shared by threshold_qc.py, pedestal_qc.py and trigger_rate_qc.py |
| `Frontend` | frontend.dfy | the front-end registers of a chip, the controller's chips as a class, and the disabled-list lookups |
| `UartNetwork` | uart_network.dfy | the controller's key table (`Controller`), the link sets (`Arrangement`), `get_temp_key`, the clock ratio map |
| `UartBringUp` | uart_bringup.dfy | `get_good_roots` |
| `UartInit` | uart_init.dfy | `init_initial_network` |
| `UartVerify` | uart_verify.dfy | `test_network` |
| `UartProbe` | uart_probe.dfy | `test_chip` |
| `Threshold` | threshold.dfy | threshold_qc.py |
| `Pedestal` | pedestal.dfy | pedestal_qc.py |
| `TriggerRate` | trigger_rate.dfy | trigger_rate_qc.py |
| `AnodeCodec` | anode_codec.dfy | plot_anode.py |
| `EnforceLoaded` | enforce_loaded.dfy | enforce_loaded_config.py |
| `ExportConfig` | export_config.dfy | generate_config.py |
| `BaseConfig` | base_config.dfy | base.py |
| `IncrementGlobal` | increment_global.dfy | increment_global.py |

**The controller's chip table.** The table is a class `Controller`. Its
`net` maps each chip key to the index of a configuration in `cells`.
`c[key].config = c[real_key].config` in `test_chip` makes two keys share
one configuration object. The model writes that as `net[key] :=
net[realKey]` (`Controller.Alias`), so a later write through either key
is seen through both.

**Hardware reads.** The hardware read-backs are oracles: `Bus.rootOk`
and `Bus.linkOk` are the pairs whose single-register read (register 122,
the chip id) answers. The grid helpers of the path planner are
uninterpreted functions in `Grid`:
- the four direction movers;
- `get_uart_enable_list` with one or two chips;
- `get_map`;
- `get_path` (the `plan` parameter of `ExportConfig.Generate`).

The only assumption made about the planner is that its chains are
disjoint and repeat no chip (`UartNetwork.PlannedPaths`).

**Rates and enforcement outcomes.** Rates measured on the hardware enter
as booleans or samples:
- `toggle_trim`: one `Sample` per pass, with the fired pairs and those
  at or above the set rate;
- `flush_data`: a `quiet` predicate per run;
- the bad channels of `evaluate_pedestal` and `evaluate_rate`: lists of
  flagged identifiers.

`enforce_configuration` and `enforce_registers` enter as their `(ok,
diff)` results.

**Integer arithmetic.** Python's `//` and `%` with a positive divisor
are Dafny's Euclidean `/` and `%`. `int(a / b)` truncates towards zero
and is written out (`AnodeCodec.TruncDiv`).

**Two behaviours of the scripts the model keeps:**
- In plot_anode.py, the inline tile formula `int((ioc-1)/4)+1` and
  `io_channel_to_tile_number` agree on the module's channels 1..32.
  They differ at channel 0, which the formula puts in tile 1.
- increment_global.py clamps only from above.

**A behaviour that depends on the larpix library.** At pedestal_qc.py:160,
`evaluate_pedestal` tests whether the larpix key is in `record`, but the
record is keyed by strings. Whether a key equals its string is a property
of the larpix library, so it is the parameter `keysMatch`:
- When it does not, every flagged channel is kept (`Pedestal.MergeKeepsFlagged`).
- When it does, each chip's flagged channels shrink to the last one
  (`Pedestal.KeysMatchKeepsLast`).

## Model

| member | source | states |
|---|---|---|
| Common.NonroutedRanges | threshold_qc.py:26 | the non-routed channel list is exactly the ranges 6..9, 22..25, 38..40 and 54..57 |
| Common.Routed | plot_anode.py:27-28 | `[i for i in range(64) if i not in nonrouted]`: a channel is listed iff it is routed; the list is strictly increasing and every entry is a channel |
| Common.RoutedFromHas | trigger_rate_qc.py:37 | every routed channel at or above the start is in the comprehension's list |
| Common.RoutedFromIncreasing | trigger_rate_qc.py:37 | the comprehension's list is strictly increasing |
| Common.ParseIntOfString | plot_anode.py:63-69 | `int(str(n)) == n` for every integer, negative ones included |
| Common.SplitJoin | plot_anode.py:60 | `'-'.join(fields).split('-') == fields` for fields without a dash |
| Common.SplitAround | plot_anode.py:60 | splitting at a separator between two strings splits each side separately |
| Common.KeyString | threshold_qc.py:406-407 | `chip_key_string` is the three `str` fields joined by `-` |
| Common.KeyStringRoundTrip | pedestal_qc.py:111-112 | a chip key string names its key: splitting at the dashes and parsing the fields gives the key back |
| Common.ReversedStep | pedestal_qc.py:33 | a loop over `reversed(c.chips.items())` that has visited the last `i` chips visits a new chip next, and after it the last `i+1` |
| Common.DivModUnique | threshold_qc.py:90-99 | quotient and remainder by a positive modulus are unique, which every decoder relies on |
| DecimalCodec.ChannelIdOf | threshold_qc.py:90-91 | `from_unique_to_channel_id` lies in 0..99 |
| DecimalCodec.ChipIdOf | threshold_qc.py:93-94 | `from_unique_to_chip_id` lies in 0..999 |
| DecimalCodec.ChipKeyOf | threshold_qc.py:96-100 | every field of `from_unique_to_chip_key` lies in 0..999 and its chip id is `from_unique_to_chip_id` |
| DecimalCodec.RoundTrip | threshold_qc.py:87-100 | the decoders give back every field of `unique_channel_id` when the channel is below 100 and the other fields are below 1000 |
| DecimalCodec.Injective | pedestal_qc.py:91-107 | within those ranges, distinct field tuples get distinct identifiers |
| Frontend.Chips.constructor | threshold_qc.py:180 | the controller's chips in insertion order, each with its front-end registers |
| Frontend.Chips.Set | threshold_qc.py:437 | replacing one chip's configuration changes that chip only |
| Frontend.Listed | threshold_qc.py:182-185 | the channels that the entries applying to a chip list, in entry order; all valid channels when the list's are |
| Frontend.ListedHas | threshold_qc.py:183 | a channel is listed for a chip iff some entry under the chip's key or `'All'` names it |
| Frontend.Lookup | enforce_loaded_config.py:118-123 | `key in d` / `d[key]`: none iff no entry has the key, otherwise an entry's channels |
| Frontend.OverwriteStep | enforce_loaded_config.py:119-120 | overwriting channel after channel is overwriting the whole list |
| Frontend.OverwriteTwice | enforce_loaded_config.py:117-123 | overwriting with `'All'` and then with the chip's entry is overwriting with both lists |
| Frontend.FlagsAsOverwrite | pedestal_qc.py:42-46 | `[off]*64` with the listed channels set to `on` |
| UartNetwork.TempKey | map_uart_links_qc.py:59-60 | `get_temp_key` keeps the io group and channel and differs from the key of every real chip (id at least 2) |
| UartNetwork.ClkRatio | map_uart_links_qc.py:23-28 | `clk_ctrl_2_clk_ratio_map` is defined exactly on 0..3 and maps k to 2^(k+1) |
| UartNetwork.Controller.constructor | map_uart_links_qc.py:132 | a fresh controller has no chips |
| UartNetwork.Controller.AddChip | map_uart_links_qc.py:70 | `add_chip` of an absent key gives it a fresh default configuration; nothing else changes |
| UartNetwork.Controller.RemoveChip | map_uart_links_qc.py:75 | `remove_chip` drops the key and keeps every configuration |
| UartNetwork.Controller.Put | map_uart_links_qc.py:72 | a configuration write through a key changes the one configuration the key refers to |
| UartNetwork.Controller.Alias | map_uart_links_qc.py:378 | `c[key].config = c[real_key].config` makes `key` share `real_key`'s configuration object |
| UartNetwork.RenameThroughTemp | map_uart_links_qc.py:221-225 | the reset-key rename writes the chip id through the reset key and removes it again: the key table is as before, and one configuration was written with the new id |
| UartNetwork.Arrangement.constructor | map_uart_links_qc.py:57 | a fresh arrangement has no good connections and no excluded links |
| UartNetwork.Arrangement.AddGoodConnection | map_uart_links_qc.py:305 | adds the link to the good connections only |
| UartNetwork.Arrangement.AddOnesidedExcludedLink | map_uart_links_qc.py:310 | adds the link to the excluded links only |
| UartNetwork.Roots | map_uart_links_qc.py:205 | `[path[0] for path in paths]` |
| UartNetwork.RootsOfPlannedPaths | map_uart_links_qc.py:219 | in a planned network a chip of a chain is a root iff it is the chain's first chip, so `prev_key.chip_id in root_chips` holds exactly at the first hop |
| UartBringUp.RootChip | map_uart_links_qc.py:63 | `root_chips[n]` is 11 + 30n |
| UartBringUp.AnsweringMembers | map_uart_links_qc.py:114-117 | an index is kept iff its root chip answered the read-back |
| UartBringUp.AnsweringIncreasing | map_uart_links_qc.py:116-123 | the kept indices increase, so each good root and channel appears once |
| UartBringUp.ClaimRoot | map_uart_links_qc.py:69-104 | one round: the reset key is renamed to the root id, the root key is added, and its configuration ends with the downstream mask `[1,0,0,0]`, upstream off, differential on, `clk_ctrl` 1 |
| UartBringUp.ClaimRoots | map_uart_links_qc.py:66-120 | the loop claims every root, and the indices it keeps are those whose root answered |
| UartBringUp.GetGoodRoots | map_uart_links_qc.py:62-128 | returns the roots and io channels whose root answered, in channel order, and leaves every root claimed |
| UartInit.ClaimChainChip | map_uart_links_qc.py:237-248 | the next chip is renamed through the reset key and added with its downstream mask pointed back at the previous chip |
| UartInit.WalkReady | map_uart_links_qc.py:214-217 | before a hop the previous chip is claimed and holds its reached configuration; the reset key and the next chip's key are absent |
| UartInit.LinkAndClaim | map_uart_links_qc.py:234-248 | the previous chip's upstream mask points at the next chip, and the next chip is claimed; no other configuration changes |
| UartInit.Hop | map_uart_links_qc.py:215-248 | one hop keeps the walk's state; at the first hop the root is re-added and listed before the next chip |
| UartInit.Advance | map_uart_links_qc.py:234-248 | the part of a hop after the root re-add keeps the walk's state |
| UartInit.SilenceChip | map_uart_links_qc.py:251-257 | a chip's masks are zeroed and its `clk_ctrl` set to 1; the rest of its configuration is kept |
| UartInit.SilenceChain | map_uart_links_qc.py:250-257 | every discovered chip, last first, ends silenced |
| UartInit.SilencedKeys | map_uart_links_qc.py:250-257 | after the silencing loop every chain chip's key refers to a silenced configuration |
| UartInit.WalkChain | map_uart_links_qc.py:212-248 | a chain of two or more chips is walked to its end and the discovered list is the chain; a shorter chain is left alone |
| UartInit.WalkDone | map_uart_links_qc.py:214 | when the hop loop stops, every hop of the chain has been taken |
| UartInit.BringUpPath | map_uart_links_qc.py:210-258 | one chain: the discovered list is the chain (empty for a one-chip chain), and every listed chip has both masks zero and `clk_ctrl` 1 |
| UartInit.PlannedChainShape | map_uart_links_qc.py:205-219 | a planned chain repeats no chip and only its first chip is a root |
| UartInit.StillFresh | map_uart_links_qc.py:210-248 | after the earlier chains, no key of the next chain, and not its reset key, is in the table |
| UartInit.NetworkUpStep | map_uart_links_qc.py:210-258 | bringing up one more chain keeps every earlier chain silenced |
| UartInit.RecordedStep | map_uart_links_qc.py:232-258 | one more chain records its discovered chips and one clock-ratio call with ratio 4 |
| UartInit.BringUpNext | map_uart_links_qc.py:210-258 | one outer iteration keeps the network state, one chain further on |
| UartInit.InitInitialNetwork | map_uart_links_qc.py:204-260 | every chain of two or more chips is discovered in full and silenced, one-chip chains add nothing, and the clock ratio of each chain's channel is set once; keys are only added |
| UartVerify.ReachFrom | map_uart_links_qc.py:267-312 | how far a walk gets: every hop up to the reach passes, and the hop after it fails |
| UartVerify.ReachUnique | map_uart_links_qc.py:267-312 | the reach is the only index with that property |
| UartVerify.GoodLinksStep | map_uart_links_qc.py:296-305 | a channel's turn adds at most its current hop to the good links |
| UartVerify.ExcludedLinksStep | map_uart_links_qc.py:308-312 | a channel's turn adds at most its current hop to the excluded links |
| UartVerify.ChannelOutcome | map_uart_links_qc.py:272-312 | one turn in terms of the walk: the flags become "stepping" and "valid" after this round, the hop is added to the good links while within the reach, and the failing hop is excluded |
| UartVerify.RoundStep | map_uart_links_qc.py:270-312 | one channel's turn keeps the lockstep loop's state |
| UartVerify.RoundsDone | map_uart_links_qc.py:267-314 | when no channel is stepping, the good links are every passing hop walked, the excluded links the first failing hop of each failed channel, and `all(valid)` holds iff every walk reaches its chain's end |
| UartVerify.SteppingBound | map_uart_links_qc.py:267-277 | a channel still stepping has rounds left before the longest chain's length, so the loop ends |
| UartVerify.Reconfigured | map_uart_links_qc.py:282-294 | a hop's writes change only the cells its two chips' keys refer to |
| UartVerify.ReconfigureHop | map_uart_links_qc.py:282-294 | the mask writes before a read-back: the root's downstream mask at the first hop, the previous chip's upstream and the next chip's downstream; the cells end as `Reconfigured` gives, and the key table is unchanged |
| UartVerify.Tried | map_uart_links_qc.py:272-312 | a walk reconfigures every hop up to the one where it fails and none past its last chip |
| UartVerify.CellsStep | map_uart_links_qc.py:270-294 | a channel's turn writes only its hop's two ends; when the walked chips share no configuration, those two have then seen one more hop's writes and all others are unchanged |
| UartVerify.ChannelTurn | map_uart_links_qc.py:272-312 | one turn: a stopped or invalid channel is skipped; past the last index it is marked done and stays valid; a known-good hop issues no read; otherwise the read-back adds a good link or an excluded link and stops the channel as invalid; the configurations are reconfigured for the hop exactly when it is tried, and otherwise unchanged |
| UartVerify.Turn | map_uart_links_qc.py:270-312 | a channel's turn keeps the loop state, configurations included |
| UartVerify.Round | map_uart_links_qc.py:268-312 | a round keeps the loop state over all channels, configurations included |
| UartVerify.TestNetwork | map_uart_links_qc.py:262-314 | the good links gain exactly the passing hops walked and the excluded links the first failing hop of each chain; the result is true iff every chain reads back to its end; the key table is unchanged; no configuration is added, one no walked chip refers to keeps its value, and when the walked chips share no configuration each ends with the writes of the hops its walk tried (`ChipCell`) |
| UartProbe.IndexOf | map_uart_links_qc.py:380 | `path.index(x)` is the first position holding `x` |
| UartProbe.FirstWith | map_uart_links_qc.py:365-368 | the first chain from a position on that holds the chip, or none when none does |
| UartProbe.FindRealChannel | map_uart_links_qc.py:360-368 | the search loop gives the io channel of the first chain holding the chip, or -1 |
| UartProbe.ProbedBreaksNoRule | map_uart_links_qc.py:349-386 | a probed candidate is a real chip, is not the previous chip (wrapping at index 0) or the next chip, is not already good, and is neither earlier in the chain nor its root |
| UartProbe.ClassifyMonotone | map_uart_links_qc.py:357 | a candidate not skipped against the larger good set is classified the same against a smaller one |
| UartProbe.ScanRecords | map_uart_links_qc.py:347-433 | probing only adds links: each probed link is good if it read back and excluded otherwise, and links only go in for probed candidates |
| UartProbe.Borrow | map_uart_links_qc.py:371-378 | the `add_chip`, or `remove_chip` then `add_chip`, followed by the alias: the key ends up sharing the real key's configuration |
| UartProbe.Isolate | map_uart_links_qc.py:397-422 | the candidate's downstream mask and the previous chip's upstream mask are cleared, and the current chip's upstream mask points at the candidate; nothing else is touched |
| UartProbe.Restore | map_uart_links_qc.py:435-444 | the three snapshots are written back and nothing else is touched |
| UartProbe.RestoreUntilRead | map_uart_links_qc.py:435-491 | the snapshots are restored at most three times in all, always with the same values; nothing but the touched configurations changes, and when the touched keys refer to different configurations they end holding the snapshots |
| UartProbe.Probe | map_uart_links_qc.py:397-491 | a probe records its link as good iff it read back, as excluded otherwise; it changes no configuration but the touched ones, and when the touched keys refer to different configurations it leaves every configuration as it found it |
| UartProbe.BorrowAcross | map_uart_links_qc.py:360-378 | a candidate outside the chain is looked up; when its chain's io channel is above 0 this channel's key for it shares that chain's configuration, or a fresh one on this very channel; only that key changes and at most one configuration is added |
| UartProbe.ProbeWrites | map_uart_links_qc.py:388-422 | the cells a probe's keys refer to are among those its plan names in the starting key table, or were added since; separate plan cells mean separate probe cells |
| UartProbe.ProbeCandidate | map_uart_links_qc.py:360-491 | a candidate past the first skip rules is skipped when earlier in the chain or its root, and otherwise probed: the link is recorded by its read-back, and the configurations outside the plan's cells keep their values (all of them when those cells are separate) |
| UartProbe.TestDirection | map_uart_links_qc.py:347-491 | one direction agrees with the probing specification; the good links only grow and the key table only gains keys of this channel; configurations outside that direction's plan cells keep their values, and all do when those cells are separate |
| UartProbe.CellsKeptStep | map_uart_links_qc.py:347-491 | one direction's probe keeps `CellsKept` |
| UartProbe.TestNext | map_uart_links_qc.py:347-491 | one turn of the direction loop keeps `test_chip`'s state |
| UartProbe.TestChip | map_uart_links_qc.py:316-492 | returns true; the recorded links are those the probes give; the key table keeps every key and only gains or re-points keys of chips outside the chain held by a chain on an io channel above 0; the configurations only gain cells, one no probe writes keeps its value, and when every probe's keys refer to different configurations all end as they were and every gained cell is a fresh chip's (`CellsKept`) |
| Threshold.DisableChannels | threshold_qc.py:184-187 | the listed channels get CSA 0 and are appended to the chip's `csa_disable` entry, which is created when missing |
| Threshold.DisableChip | threshold_qc.py:182-187 | all entries applying to one chip, in order |
| Threshold.DisableFromFile | threshold_qc.py:170-190 | every chip's listed channels (under its key or `'All'`) get CSA 0 and are appended to `csa_disable`; with no list given, the non-routed channels under `'All'` |
| Threshold.DefaultListsNonrouted | threshold_qc.py:177 | with no list, each chip's disabled channels are the non-routed ones |
| Threshold.EnableChip | threshold_qc.py:211-218 | one chip's channel loop gives the requested masks |
| Threshold.EnableFrontend | threshold_qc.py:207-218 | every chip of the network gets the masks its `csa_disable` entry asks for; the other chips are untouched |
| Threshold.SaveChip | threshold_qc.py:528-533 | all on, then the disabled channels off: the same requested masks |
| Threshold.SaveConfigMasks | threshold_qc.py:525-535 | every listed chip gets the requested masks |
| Threshold.FrontendFlags | threshold_qc.py:211-218 | a channel gets mask 1 and CSA 0 iff its chip's `csa_disable` lists it, otherwise mask 0 and CSA 1 |
| Threshold.ChannelStep | threshold_qc.py:480-512 | one channel through one pass: an inactive channel is untouched; trims stay in 0..31; a fired channel above the rate steps up and stops; past 31 it is clamped, disabled and stopped; a tuned quiet channel steps down and stops at 0 |
| Threshold.OffStaysOff | threshold_qc.py:481-505 | an inactive channel stays inactive |
| Threshold.RoundKeeps | threshold_qc.py:476-512 | a pass keeps trims in 0..31 and switched-off channels off |
| Threshold.RoundsKeep | threshold_qc.py:468-519 | the same over any number of passes |
| Threshold.ActiveDescends | threshold_qc.py:496-510 | a tuned channel still active after `n` passes was active from the start and has stepped its trim down by exactly `n` |
| Threshold.AllTunedSettle | threshold_qc.py:468-519 | when every active channel is tuned and the trims start in 0..31, no channel is active after 32 passes |
| Threshold.UntunedQuietStays | threshold_qc.py:468-519 | an active channel outside the tuned list that never fires keeps its state, so the loop stays running |
| Threshold.MainStartTuned | threshold_qc.py:568 | with the default disable list, which holds every non-routed channel, the routed channels main tunes cover every channel the loop starts active |
| Threshold.MaxedOutDisabled | threshold_qc.py:486-490 | a channel is appended to `csa_disable` only when it fired at trim 31, and it is then disabled and inactive at 31 |
| Threshold.StartChip | threshold_qc.py:458-464 | a channel starts active iff it is not in `csa_disable`, and disabled iff it is; the trims are the configured ones |
| Threshold.Applied | threshold_qc.py:437-441 | `update_chip` on one chip keeps its registers well formed |
| Threshold.AppliedAbsorbs | threshold_qc.py:514 | writing a later status over an earlier one is writing the later one alone |
| Threshold.UpdateChip | threshold_qc.py:433-444 | every chip gets its status's trims, and each channel disabled or inactive gets CSA 0 and mask 1 |
| Threshold.UpdateOne | threshold_qc.py:437-441 | one chip's channel loop |
| Threshold.FiredStep | threshold_qc.py:476-500 | one fired pair of the first half of a pass |
| Threshold.QuietChip | threshold_qc.py:503-512 | the second half of a pass on one chip; a chip with no active channel is skipped |
| Threshold.QuietPass | threshold_qc.py:502-512 | the second half of a pass over all chips |
| Threshold.FiredThenQuiet | threshold_qc.py:476-512 | the two halves of a pass in turn are one `Round`, so a fired channel is never stepped down in the same pass |
| Threshold.QuietAfterFired | threshold_qc.py:506-507 | on one channel, the quiet half after the fired half is `ChannelStep` |
| Threshold.Pass | threshold_qc.py:476-512 | one pass equals the pass specification |
| Threshold.StartRow | threshold_qc.py:459-464 | one chip's status loop |
| Threshold.InitStatus | threshold_qc.py:457-464 | the starting status, or none when some chip has no `csa_disable` entry (the source raises `KeyError`) |
| Threshold.StillTuning | threshold_qc.py:515-519 | the stop test is true iff some chip still has an active channel |
| Threshold.ToggleNext | threshold_qc.py:468-519 | one iteration: a pass, `update_chip`, and the stop test |
| Threshold.TogglePasses | threshold_qc.py:468-519 | the loop runs while some channel is active, at most one pass per sample |
| Threshold.PassesFinish | threshold_qc.py:468-523 | when the loop stops, the returned `csa_disable` is that of the passes run, every pass but the last left a channel active, and the chips hold what `update_chip` wrote last |
| Threshold.ToggleTrim | threshold_qc.py:455-523 | `toggle_trim`: none iff a chip lacks a `csa_disable` entry; otherwise the returned lists are those of the passes run, the loop stops only when no channel is active or the samples run out, and the chips hold the last status written |
| Threshold.PassesBounded | threshold_qc.py:468-519 | when every active channel is tuned and the trims start in 0..31, the loop makes at most 32 passes |
| Threshold.Clamp | threshold_qc.py:278-279 | the result lies in 0..hi, equals the value inside the range, and is 0 below it and hi above it |
| Threshold.ClampNearest | threshold_qc.py:278-279 | the clamp is the nearest value of the range and keeps the order |
| Threshold.GlobalSeed | threshold_qc.py:276-282 | `threshold_global` in 0..255, equal to the DAC value when in range; all trims 31; the masks untouched |
| Threshold.TrimSeed | threshold_qc.py:319-323 | the channel's trim in 0..31, equal to the DAC value when in range; every other register untouched |
| Pedestal.MarkListed | pedestal_qc.py:43-46 | each channel listed for the chip is set to the value |
| Pedestal.CsaChip | pedestal_qc.py:42-46 | CSA 1 everywhere except the listed channels, which get 0 |
| Pedestal.MaskChip | pedestal_qc.py:64-70 | `channel_mask` and `periodic_trigger_mask` are 1 exactly at the listed channels |
| Pedestal.Pass | pedestal_qc.py:33-71 | a pass over the chips in reverse order applies the per-chip step to every chip |
| Pedestal.FirstRaises | pedestal_qc.py:57-59 | the first check raises iff some differing register lies outside 66..73 on a chip whose id is not 12 |
| Pedestal.SecondRaises | pedestal_qc.py:81-83 | the second check raises iff some differing chip's id is not 12 |
| Pedestal.CsaDiffsTolerated | pedestal_qc.py:58 | differences confined to the CSA registers, or to chip 12, are tolerated by the first check |
| Pedestal.ConfigurePedestal | pedestal_qc.py:27-87 | every chip ends with CSA 0 exactly at its listed channels, trims and global threshold kept; unless the first check raises, both masks are 1 exactly at the listed channels; it raises iff one of the two checks raises |
| Pedestal.ListKeyStringInjective | pedestal_qc.py:111-112 | different disabled-list keys are different strings, so the record's string keys do not collide |
| Pedestal.FlaggedForHas | pedestal_qc.py:156-161 | a channel is listed under a chip iff some flagged identifier decodes to that chip and channel |
| Pedestal.FlagChannels | pedestal_qc.py:145-162 | the flagged loop counts every flagged channel and records it under its chip's key string |
| Pedestal.InputForEntry | pedestal_qc.py:164-165 | with dictionary keys, what is appended under a key is that key's entry |
| Pedestal.EvaluatePedestal | pedestal_qc.py:127-167 | the record has exactly the flagged chips' keys and the input keys; each entry is the flagged channels followed by the input's channels; the count is the number flagged |
| Pedestal.MergeKeepsFlagged | pedestal_qc.py:156-165 | when a key does not test equal to its string, every flagged channel is in the record under its chip |
| Pedestal.MergeKeepsInput | pedestal_qc.py:164-165 | every input entry's channels end its key's entry of the record |
| Pedestal.KeysMatchKeepsLast | pedestal_qc.py:160-161 | when a key tests equal to its string, a chip's flagged channels shrink to the channel of the last flagged id on that chip: no later flagged id lies on it |
| TriggerRate.NonroutedPairs | trigger_rate_qc.py:152-154 | the default list has one pair per tested chip and non-routed channel and no other |
| TriggerRate.DefaultForbidden | trigger_rate_qc.py:150-154 | the loop builds that list |
| TriggerRate.EntryPairs | trigger_rate_qc.py:146-149 | a pair is in the loaded list iff some entry with its key lists its channel |
| TriggerRate.LoadedForbidden | trigger_rate_qc.py:142-149 | the loop builds that list |
| TriggerRate.Tested | trigger_rate_qc.py:37-47 | the tested front end: `threshold_global` is the given threshold; no non-routed or forbidden channel is unmasked |
| TriggerRate.TestedEnables | trigger_rate_qc.py:40-46 | every routed channel that is not forbidden gets mask 0 and CSA 1 |
| TriggerRate.DefaultEnablesRouted | trigger_rate_qc.py:150-154 | with the default list every routed channel of a tested chip is on |
| TriggerRate.AllEntriesIgnored | trigger_rate_qc.py:146-149 | an `'All'` entry of a loaded list never matches the pair of a tested chip |
| TriggerRate.Reset | trigger_rate_qc.py:65-67 | after a test: all channels masked, all CSAs off, `threshold_global` 255 |
| TriggerRate.ResetForgetsTest | trigger_rate_qc.py:37-67 | resetting after the test gives what resetting before it would |
| TriggerRate.MarkedRouted | trigger_rate_qc.py:37-46 | the loop over the routed channels marks exactly the enabled ones |
| TriggerRate.TestChannels | trigger_rate_qc.py:40-46 | the channel loop agrees with that marking |
| TriggerRate.TestChip | trigger_rate_qc.py:39-47 | one chip's configuration before its test |
| TriggerRate.AsicTest | trigger_rate_qc.py:36-72 | each chip is written in its tested configuration and left reset; nothing else changes |
| TriggerRate.AppendAbsent | trigger_rate_qc.py:106-110 | append-if-absent keeps the old list as a prefix, holds every new pair and nothing else, and adds no duplicate |
| TriggerRate.AppendPresent | trigger_rate_qc.py:108 | pairs already present change nothing |
| TriggerRate.AppendAbsentIdempotent | trigger_rate_qc.py:103-110 | evaluating the same flagged channels twice adds nothing the second time |
| TriggerRate.PairOfUnique | trigger_rate_qc.py:75-89 | decoding an in-range identifier gives back its chip and channel |
| TriggerRate.EvaluateRate | trigger_rate_qc.py:92-111 | the list is the old one with each flagged pair appended unless already present |
| TriggerRate.ChannelsOfHas | trigger_rate_qc.py:120-125 | the channels under a key are those paired with it |
| TriggerRate.GroupedKeys | trigger_rate_qc.py:118-125 | the saved dictionary has exactly the keys of the pairs |
| TriggerRate.GroupedAt | trigger_rate_qc.py:120-125 | each key's list is its channels in list order, each once |
| TriggerRate.GroupedOnce | trigger_rate_qc.py:120-125 | each forbidden pair's channel is listed exactly once under its key |
| TriggerRate.GroupNext | trigger_rate_qc.py:122-125 | one iteration creates the key's list when missing and appends the channel unless present |
| TriggerRate.SaveDoNotEnable | trigger_rate_qc.py:118-125 | the loop builds the grouped dictionary |
| AnodeCodec.RecordUniqueId | plot_anode.py:30-32 | the record form equals `unique_channel_id_from_identifiers` on the same fields |
| AnodeCodec.ChannelIdOf | plot_anode.py:34 | `unique_2_channel_id` lies in 0..63 |
| AnodeCodec.ChipIdOf | plot_anode.py:36 | `unique_2_chip_id` lies in 0..255 |
| AnodeCodec.IoChannelOf | plot_anode.py:38 | `unique_2_io_channel` lies in 0..255 |
| AnodeCodec.IoGroupOf | plot_anode.py:40 | `unique_2_io_group` lies in 0..255 |
| AnodeCodec.RoundTrip | plot_anode.py:30-40 | the four decoders invert the encoder for channels below 64 and other fields below 256 |
| AnodeCodec.ChipKeyStringOfUnique | plot_anode.py:42 | the key string of an encoded identifier is `"group-channel-chip"` of its fields |
| AnodeCodec.TileIoChannels | plot_anode.py:45-46 | four increasing channels, exactly 4(t-1)+1 .. 4t |
| AnodeCodec.TileMembership | plot_anode.py:48-52 | a channel belongs to tile t of the eight iff it is in 1..32 and the tile search names t |
| AnodeCodec.IoChannelToTile | plot_anode.py:48-52 | the search returns the owning tile, or -1 outside 1..32 |
| AnodeCodec.TruncDiv | plot_anode.py:117 | `int(a / b)` agrees with floor division for non-negative numerators |
| AnodeCodec.InlineTileAgrees | plot_anode.py:117 | the inline tile formula agrees with the tile search on 1..32 |
| AnodeCodec.InlineTileDiffersAtZero | plot_anode.py:117 | at channel 0 the formula gives 1 and the search gives -1 |
| AnodeCodec.ParsePlainFileName | plot_anode.py:60-65 | a name ending in `-<key>-<tail>` (tail other than `mod.json`) gives the key's fields |
| AnodeCodec.ParseModFileName | plot_anode.py:60-69 | a name ending in `-<key>-<stamp>-mod.json` gives the key's fields, one field further left |
| EnforceLoaded.LexLessIrreflexive | enforce_loaded_config.py:56 | Python's string order is irreflexive |
| EnforceLoaded.LexLessTransitive | enforce_loaded_config.py:56 | it is transitive |
| EnforceLoaded.LexLessTotal | enforce_loaded_config.py:56 | it orders any two different strings |
| EnforceLoaded.FileName | enforce_loaded_config.py:25 | a chip's saved file name matches its own pattern |
| EnforceLoaded.MatchesOnlyOwnFiles | enforce_loaded_config.py:56 | a chip's pattern matches no file saved for another chip |
| EnforceLoaded.Greatest | enforce_loaded_config.py:56-59 | `sorted(names)[-1]` is a name above every other |
| EnforceLoaded.GreatestUnique | enforce_loaded_config.py:56-59 | that name is unique |
| EnforceLoaded.Matching | enforce_loaded_config.py:56 | the glob keeps exactly the names matching the chip's pattern |
| EnforceLoaded.ConfigFileChoice | enforce_loaded_config.py:52-59 | a file is loaded by every chip; from a directory a chip loads the greatest matching file, or nothing when none matches |
| EnforceLoaded.Silenced | enforce_loaded_config.py:67-68 | every channel masked with its CSA off, the other registers kept |
| EnforceLoaded.WrappedHits | enforce_loaded_config.py:119-123 | a flag is written by a list of Python indexes iff the list holds it or the negative index that counts back to it; every valid index lands on a flag |
| EnforceLoaded.IndexesConcat | enforce_loaded_config.py:117-123 | indexing with the `'All'` list and then the chip's list fails iff either does, and writes the flags of both |
| EnforceLoaded.FinalState | enforce_loaded_config.py:109-164 | at the end a channel overridden as itself or by the negative index that counts back to it is masked with CSA off, and every other channel has its loaded mask and CSA |
| EnforceLoaded.NothingDisabledRestoresLoaded | enforce_loaded_config.py:109-164 | with no disabled channels, the final front end is the loaded one |
| EnforceLoaded.LoadChip | enforce_loaded_config.py:51-68 | one chip: load, keep the replica of the loaded masks, then silence |
| EnforceLoaded.LoadPass | enforce_loaded_config.py:49-71 | every chip is loaded and silenced, and its replica taken from the loaded front end |
| EnforceLoaded.ForceChannels | enforce_loaded_config.py:119-123 | the listed channels are set to the value, a negative one counting from the end; it raises `IndexError` iff some listed channel lies outside -64..63, after setting the channels before the first such one |
| EnforceLoaded.RestoreFlags | enforce_loaded_config.py:117-123 | the replica's flags with the `'All'` channels and then the chip's channels forced; `IndexError` iff one of them is no index |
| EnforceLoaded.RestoreChip | enforce_loaded_config.py:110-123 | one chip's CSAs or mask restored from its replica, with the overrides; `IndexError` iff an override is no index |
| EnforceLoaded.RestorePass | enforce_loaded_config.py:109-164 | every chip restored in reverse order; `IndexError` iff some chip's overrides hold a channel that is no index |
| EnforceLoaded.OutsideCsa | enforce_loaded_config.py:95-97 | the first check raises iff some differing register lies outside 66..73 |
| EnforceLoaded.CsaChecks | enforce_loaded_config.py:136-141 | the CSA checks raise iff some chip's check fails with a chip in its diff |
| EnforceLoaded.EnforceLoadedConfig | enforce_loaded_config.py:27-189 | while the first write is made every chip is silenced; past the first check it raises `IndexError` iff some chip's overrides hold a channel outside -64..63; it raises `RuntimeError` iff the first check does or, with valid overrides, a CSA check does; without either every chip ends in its final state |
| ExportConfig.ExtNode | generate_config.py:42 | the root node is `'ext'` with `miso_us` `[None, None, None, root]` and `root` set |
| ExportConfig.ChipNodes | generate_config.py:43-47 | one node per chain chip in order; a chip's `miso_us` is `get_map` to the next chip, the last chip's is all `None` |
| ExportConfig.NodesShape | generate_config.py:42-47 | a channel's node list has `len(path)+1` nodes, the `'ext'` root first and only there |
| ExportConfig.NodesListPath | generate_config.py:43-47 | reading the chips of the node list back gives the chain |
| ExportConfig.BuildNodes | generate_config.py:42-47 | the loop builds that node list |
| ExportConfig.ReportUncovered | generate_config.py:31-33 | the reported ids are exactly those in 11..110 that no chain reaches, in increasing order |
| ExportConfig.SumLengthsCountsChips | generate_config.py:37 | for a planned network `nchips_hit` is the number of chips the chains reach |
| ExportConfig.UpdatedAt | generate_config.py:40-49 | a channel no chain writes keeps its entry, and a written channel holds the last write |
| ExportConfig.UpdatedDistinct | generate_config.py:49 | with distinct io channels, each channel holds its chain's node list |
| ExportConfig.UpdatedTwice | generate_config.py:40-49 | calling `main` twice writes the same network section as once |
| ExportConfig.ChannelHoldsChain | generate_config.py:35-49 | after the loop, each chain's io channel holds that chain's node list |
| ExportConfig.NodeLists | generate_config.py:35-49 | one node list per chain, headed by its root |
| ExportConfig.UartMapsArePermutations | generate_config.py:52-54 | the three UART maps are permutations of 0..3; the upstream and downstream maps are inverse to each other, and the `mosi` map is its own inverse |
| ExportConfig.SetOf | generate_config.py:22-25 | the registered set holds exactly the listed elements |
| ExportConfig.Header.constructor | generate_config.py:15 | `_header` with an empty network for its io group |
| ExportConfig.Header.SetNodes | generate_config.py:40-49 | one channel's node list is written and nothing else changes |
| ExportConfig.Header.SetUartMaps | generate_config.py:52-54 | the three fixed maps are written and the network is kept |
| ExportConfig.Register | generate_config.py:22-25 | every excluded link (or chip) is registered with the planner |
| ExportConfig.WriteChains | generate_config.py:35-49 | reports each chain's length; `nchips_hit` is their sum; each chain's channel gets its node list |
| ExportConfig.Generate | generate_config.py:19-56 | an io group other than the header's raises when there is a chain to write (none, nothing written); otherwise the plan is made from the registered exclusions and roots, the uncovered ids are reported in order, `nchips_hit` is the sum of the chain lengths, each chain's channel gets its node list and the three UART maps are written |
| BaseConfig.Offset | base.py:38-41 | the offset of each ADC of tile i lies within tile i's block of 32; the voltage ADCs are odd and the digital ones lie in the upper half |
| BaseConfig.OffsetsDistinctInTile | base.py:37-42 | a tile's four ADCs have distinct offsets |
| BaseConfig.OffsetsDisjoint | base.py:34-43 | different tiles share no offset, and all offsets lie in 0..255 |
| BaseConfig.PowerRegisters | base.py:31-44 | tiles 1..8, each mapped to `[32(i-1)+1, 32(i-1), 32(i-1)+17, 32(i-1)+16]` in VDDA, IDDA, VDDD, IDDD order |
| BaseConfig.FlushData | base.py:47-52 | at most `max_iterations` runs; every run but the last was not quiet, and stopping early means the last run was quiet |
| BaseConfig.FlushStopsAtFirstQuiet | base.py:49-52 | the flush stops right after the first quiet run within the limit |
| BaseConfig.FlushWithoutQuiet | base.py:49-52 | with no quiet run the whole budget is used |
| BaseConfig.Based | base.py:172-175 | `vref_dac` 185, `vcm_dac` 41, `adc_hold_delay` 15, `miso_differential` `[1,1,1,1]`; every other register kept |
| BaseConfig.BasedIdempotent | base.py:170-176 | setting the base values twice is setting them once |
| BaseConfig.Chips.constructor | base.py:170 | the controller's chips with their analog settings |
| BaseConfig.Chips.Set | base.py:172-175 | one chip's configuration replaced |
| BaseConfig.SetBase | base.py:170-176 | every chip gets the base values, and the pairs hold each chip's initial configuration in reverse order |
| BaseConfig.EnforceBase | base.py:183-187 | no failure iff every chip's enforcement of the four base registers 82, 83, 125 and 129 succeeds; otherwise the first chip that fails |
| IncrementGlobal.Incremented | increment_global.py:9-12 | never above 255; either the plain sum or 255, and the sum whenever it is below 255 |
| IncrementGlobal.IncrementedIsMin | increment_global.py:9-12 | the new value is min(old + inc, 255) |
| IncrementGlobal.IncrementByZero | increment_global.py:9-12 | a zero increment leaves a value in range unchanged |
| IncrementGlobal.NoLowerClamp | increment_global.py:9-12 | a negative increment can go below 0 |
| IncrementGlobal.IncrementedMonotone | increment_global.py:9-12 | a larger increment never gives a smaller value |
| IncrementGlobal.IncrementedTwice | increment_global.py:9-12 | two runs, the second with a non-negative increment, do what one run with the sum does |
| IncrementGlobal.ConfigStore.constructor | increment_global.py:8 | the stored `threshold_global` of each file |
| IncrementGlobal.ConfigStore.Write | increment_global.py:14 | writing one file changes that file only |
| IncrementGlobal.Applied | increment_global.py:6-14 | processing files keeps the set of files |
| IncrementGlobal.AppliedOnce | increment_global.py:6-14 | an unlisted file keeps its value; a file listed once gets one increment |
| IncrementGlobal.ListedTwice | increment_global.py:6-14 | a file listed twice, with a non-negative step, is incremented by twice the step |
| IncrementGlobal.IncrementFiles | increment_global.py:5-17 | with `dry_run` nothing is written and each file's new value is reported; otherwise every file is written with its new value |

## Left out

- Hardware I/O is not modelled: PACMAN and LArPix register writes, `reset_larpix`, `set_uart_clock_ratio`, the power-register writes, the logger and data runs. Writes appear only as their effect on the configurations the controller holds. Read-backs appear as the `Bus` oracles and the `(ok, diff)` results passed in.
- The path planner is not modelled. It is a parameter with one assumed property: its chains are disjoint and repeat no chip. Its exclusions bookkeeping (`add_onesided_excluded_link` as the planner sees it) is a set of links.
- The replan loop in `main` of map_uart_links_qc.py (map_uart_links_qc.py:520-533) has no attempt cap. The model covers one bring-up and one verification, and `test_chip` for one chip. The loop itself, `reset_board_get_controller` and the rest of `main` are left out.
- Floating-point work is left out: pedestal means and RMS, `from_ADC_to_mV`, the DAC seed formulas, rate divisions, and the mV threshold in `parse_asic_config`. The seeds take the rounded DAC value as a parameter. Rates enter as booleans or samples.
- Several loops feed back on live trigger data and are left out: `measure_background_rate_*`, `send_testpulse`, `channel_start_listen`/`channel_stop_listen`, and the rate-raise loop of `enable_frontend` (threshold_qc.py:220-256). `find_pedestal`, `set_pixel_trim`, `update`, `note_tagged_from_outset` and `silence_all` are not called by the modelled operations and are left out.
- HDF5 reading, JSON and config-file reading and writing, `glob` over a real directory, timestamped file names, plotting, argparse entry points and prints are left out. The directory listing is a parameter of `EnforceLoaded.ConfigSource`, and the files' contents are a map of `EnforceLoaded.Setting`.
- start_run_log_raw.py is not part of this model: it is an endless acquisition loop, and its `power_registers` duplicates base.py's. The copies of `power_registers` and `flush_data` in map_uart_links_qc.py are the same as base.py's and are modelled once.
- In the modelled operations, equality between larpix `Key` objects and strings is abstracted. Disabled-list keys are `ListKey` values, `'All'` or a chip key, compared by identity. In `evaluate_pedestal` it is the `keysMatch` parameter.
- `configure_pedestal`'s periodic trigger and reset registers, and the analog registers base.py leaves alone, are not modelled one by one. `Regs` holds only the front-end registers, and the analog registers base.py leaves alone are kept together, unchanged, as the `others` field of `BaseConfig.Analog`.
- In export_config.dfy the descriptor's string keys (`str(io_group)`, `str(io_channel)`) are the integers themselves.
- UartProbe.TestChip: requires `KeysFor` for every direction. This excludes the unguarded branch at map_uart_links_qc.py:360-405: a candidate that lies in no chain (the search gives -1) or whose keys are absent. There the source reads an unbound or stale `next_index` and a missing `c[next_key]`.
- UartVerify.TestNetwork: requires the keys of every hop it reaches to be in the controller (`HopKeysPresent`), as `init_initial_network` leaves them. A missing key would raise in the source.
- UartInit.InitInitialNetwork: requires a planned network whose keys are not yet in the controller (`FreshFor`). The source's `add_chip` raises otherwise.
- UartBringUp.GetGoodRoots: requires at most four io channels, the number of root chips; the source raises `IndexError` beyond that. It also requires the reset keys and root keys to be absent from the controller, as they are on a freshly reset board.
- Threshold.ToggleTrim: the loop is fed a finite sequence of samples, so it also stops when they run out. It requires distinct, valid tuned channels, and each sample's fired pairs distinct and on valid channels, as the pairs of one readout are.
- Threshold.ToggleTrim: `while flag` (threshold_qc.py:468-519) need not end. A channel the disable list leaves active but that is not in the tuned list is never stepped, so if it never fires the loop goes on (`UntunedQuietStays`). The settling bounds `AllTunedSettle` and `PassesBounded` therefore require every active channel to be tuned; main's own call meets this with the default disable list (`MainStartTuned`).
- Pedestal.ConfigurePedestal: requires the listed channels to be channels of the chip (0..63, `ValidChannelsIn`). A negative index, which Python reads from the end, and the `IndexError` at 64 and above are not modelled.
- Common.ParseInt: accepts an optional `-` and decimal digits only. Python's `int()` also takes a leading `+`, surrounding whitespace and `_` separators, so file names written that way are rejected by the model's parse in plot_anode.py:60-69.
- UartVerify.TestNetwork: the final configurations of the walked chips are stated only when their keys refer to separate configurations (`SeparateHops`). With aliased keys the later write wins and the model states only that nothing else changes.
- UartProbe.TestChip: full restoration is stated only when every probe's keys refer to separate configurations (`ProbesSeparate`). When `prev` and `curr` share one, the backup of `curr` is taken after `prev` was zeroed (map_uart_links_qc.py:407-411), so a restore can leave it zeroed; the model then states only that the other configurations keep their values.
- Threshold.DisableFromFile: requires the loaded list's channels to be channels of the chip (0..63). A negative index, which Python would read from the end, is not modelled.
- TriggerRate.AsicTest: requires the tested chips to be distinct chips of the controller. A missing chip raises in the source.
- ExportConfig.Generate: requires no more chains than roots and io channels. The source raises `IndexError` otherwise.
- EnforceLoaded.EnforceLoadedConfig: requires every chosen file to be readable and well formed (`Readable`). A read error raises in the source. After an `IndexError` the configurations held in memory are not stated beyond their keys, since the program stops there.
- IncrementGlobal.IncrementFiles: requires every file to be present in the store. Only `threshold_global` of each configuration is modelled.
- BaseConfig.FlushData: the data rate of each run is the oracle `quiet`, which is true when the rate is at or below the limit.
