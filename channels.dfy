/**
 * The channel table and the channels a chart defines: a channel is defined
 * when both of its gates are activated by some Personality or Design
 * reading.
 */
module Channels {
  import opened Centers

  /** A row of the channel table: its two gates, as written, and the two centers it joins. */
  datatype ChannelEntry = ChannelEntry(gate1: int, gate2: int, center1: Center, center2: Center)

  /** A channel as reported: its two gates, smaller first. */
  type Key = (int, int)

  /**
   * `HUMAN_DESIGN_CHANNELS`, row by row in insertion order: 33 rows, one of
   * them, (22, 12), keyed larger gate first as written.
   */
  const CHANNELS: seq<ChannelEntry> := [
    ChannelEntry(4, 63, Head, Ajna), ChannelEntry(11, 56, Head, Ajna), ChannelEntry(17, 62, Head, Ajna),
    ChannelEntry(24, 61, Head, Ajna), ChannelEntry(23, 43, Head, Ajna), ChannelEntry(47, 64, Head, Ajna),
    ChannelEntry(1, 8, Ajna, Throat), ChannelEntry(7, 31, Ajna, Throat), ChannelEntry(13, 33, Ajna, Throat),
    ChannelEntry(2, 14, Sacral, Throat), ChannelEntry(5, 15, Sacral, Throat), ChannelEntry(16, 48, Throat, G),
    ChannelEntry(10, 20, Throat, G), ChannelEntry(10, 34, Throat, Sacral), ChannelEntry(20, 34, Throat, Sacral),
    ChannelEntry(10, 57, Throat, G), ChannelEntry(20, 57, Throat, G), ChannelEntry(29, 46, Sacral, Throat),
    ChannelEntry(21, 45, Ego, Throat), ChannelEntry(26, 44, Ego, Spleen), ChannelEntry(3, 60, Sacral, Root),
    ChannelEntry(9, 52, Sacral, Root), ChannelEntry(34, 57, Sacral, G), ChannelEntry(42, 53, Sacral, Root),
    ChannelEntry(6, 59, SolarPlexus, Sacral), ChannelEntry(22, 12, SolarPlexus, Throat), ChannelEntry(37, 40, SolarPlexus, G),
    ChannelEntry(39, 55, SolarPlexus, Root), ChannelEntry(18, 58, Spleen, Root), ChannelEntry(28, 38, Spleen, Root),
    ChannelEntry(32, 54, Spleen, Sacral), ChannelEntry(19, 49, Root, Sacral), ChannelEntry(30, 41, Root, G)
  ]

  /** `(min(a, b), max(a, b))`: the same two gates, smaller first. */
  function Normalize(a: int, b: int): (k: Key)
    ensures k.0 <= k.1
    ensures (k.0 == a && k.1 == b) || (k.0 == b && k.1 == a)
  {
    if a <= b then (a, b) else (b, a)
  }

  /** The normalised key of a row. */
  function KeyOf(row: ChannelEntry): Key
  {
    Normalize(row.gate1, row.gate2)
  }

  /** The gates some reading activates: every gate value that is not falsy (`if gate:`). */
  function ActivatedGates(gates: seq<int>): set<int>
  {
    set g | g in gates && g != 0
  }

  /** Whether both gates of a row are activated. */
  predicate RowDefined(activated: set<int>, row: ChannelEntry)
  {
    row.gate1 in activated && row.gate2 in activated
  }

  /** The defined-channel list after scanning the first `n` rows of a table. */
  function DefinedPrefix(rows: seq<ChannelEntry>, activated: set<int>, n: nat): seq<Key>
    requires n <= |rows|
  {
    if n == 0 then []
    else
      var previous := DefinedPrefix(rows, activated, n - 1);
      if RowDefined(activated, rows[n - 1]) && KeyOf(rows[n - 1]) !in previous then previous + [KeyOf(rows[n - 1])]
      else previous
  }

  /** The channels defined by a set of activated gates, in table order. */
  function DefinedChannels(activated: set<int>): seq<Key>
  {
    DefinedPrefix(CHANNELS, activated, |CHANNELS|)
  }

  /** A key is in the scanned prefix exactly when one of the scanned rows is defined and has that key. */
  lemma {:induction false} DefinedPrefixMembers(rows: seq<ChannelEntry>, activated: set<int>, n: nat)
    requires n <= |rows|
    ensures forall k :: k in DefinedPrefix(rows, activated, n) <==>
      exists i | 0 <= i < n :: RowDefined(activated, rows[i]) && k == KeyOf(rows[i])
  {
    if n > 0 {
      DefinedPrefixMembers(rows, activated, n - 1);
    }
  }

  /** No key appears twice in the scanned prefix, and every key is smaller gate first. */
  lemma {:induction false} DefinedPrefixDistinct(rows: seq<ChannelEntry>, activated: set<int>, n: nat)
    requires n <= |rows|
    ensures forall i, j | 0 <= i < j < |DefinedPrefix(rows, activated, n)| ::
      DefinedPrefix(rows, activated, n)[i] != DefinedPrefix(rows, activated, n)[j]
    ensures forall k | k in DefinedPrefix(rows, activated, n) :: k.0 <= k.1
  {
    if n > 0 {
      DefinedPrefixDistinct(rows, activated, n - 1);
    }
  }

  /**
   * `calculate_defined_channels_from_gates`: a channel (smaller gate first)
   * is listed exactly when both gates of its table row are activated by the
   * Personality or Design gates, and it is listed once.
   */
  lemma {:induction false} DefinedChannelsCorrect(personality: seq<int>, design: seq<int>)
    ensures var defined := DefinedChannels(ActivatedGates(personality + design));
      && (forall k :: k in defined <==>
            exists i | 0 <= i < |CHANNELS| ::
              CHANNELS[i].gate1 in personality + design && CHANNELS[i].gate1 != 0 &&
              CHANNELS[i].gate2 in personality + design && CHANNELS[i].gate2 != 0 &&
              k == KeyOf(CHANNELS[i]))
      && (forall i, j | 0 <= i < j < |defined| :: defined[i] != defined[j])
      && (forall k | k in defined :: k.0 <= k.1)
  {
    DefinedPrefixMembers(CHANNELS, ActivatedGates(personality + design), |CHANNELS|);
    DefinedPrefixDistinct(CHANNELS, ActivatedGates(personality + design), |CHANNELS|);
  }

  /** The `activated_gates` loop: the non-zero gates of the readings. */
  method CollectActivatedGates(all: seq<int>) returns (activated: set<int>)
    ensures activated == ActivatedGates(all)
  {
    activated := {};
    for k := 0 to |all|
      invariant activated == ActivatedGates(all[..k])
    {
      var gate := all[k];
      if gate != 0 {
        activated := activated + {gate};
      }
      assert all[..k + 1] == all[..k] + [gate];
    }
    assert all[..|all|] == all;
  }

  /** The pass over the table rows, appending each newly defined channel. */
  method ScanChannels(rows: seq<ChannelEntry>, activated: set<int>) returns (defined: seq<Key>)
    ensures defined == DefinedPrefix(rows, activated, |rows|)
  {
    defined := [];
    for i := 0 to |rows|
      invariant defined == DefinedPrefix(rows, activated, i)
    {
      var row := rows[i];
      if row.gate1 in activated && row.gate2 in activated {
        var channel := Normalize(row.gate1, row.gate2);
        if channel !in defined {
          defined := defined + [channel];
        }
      }
    }
  }

  /**
   * `calculate_defined_channels_from_gates` as the code performs it: the
   * activated-gate set, then one pass over the table.
   */
  method CalculateDefinedChannelsFromGates(personality: seq<int>, design: seq<int>) returns (defined: seq<Key>)
    ensures defined == DefinedChannels(ActivatedGates(personality + design))
  {
    var activated := CollectActivatedGates(personality + design);
    defined := ScanChannels(CHANNELS, activated);
  }

  /** `channel_to_centers` after its first `n` insertions; a later row overwrites an earlier one with the same key. */
  function ChannelMapPrefix(rows: seq<ChannelEntry>, n: nat): map<Key, (Center, Center)>
    requires n <= |rows|
  {
    if n == 0 then map[]
    else ChannelMapPrefix(rows, n - 1)[KeyOf(rows[n - 1]) := (rows[n - 1].center1, rows[n - 1].center2)]
  }

  /** `channel_to_centers`: normalised key to the pair of centers. */
  function ChannelToCenters(): map<Key, (Center, Center)>
  {
    ChannelMapPrefix(CHANNELS, |CHANNELS|)
  }

  /** Every key of the map comes from a row with those centers. */
  lemma {:induction false} ChannelMapSound(rows: seq<ChannelEntry>, n: nat)
    requires n <= |rows|
    ensures forall k | k in ChannelMapPrefix(rows, n) ::
      exists i | 0 <= i < n :: k == KeyOf(rows[i]) && ChannelMapPrefix(rows, n)[k] == (rows[i].center1, rows[i].center2)
  {
    if n > 0 {
      ChannelMapSound(rows, n - 1);
    }
  }

  /** Every row's key is in the map. */
  lemma {:induction false} ChannelMapComplete(rows: seq<ChannelEntry>, n: nat)
    requires n <= |rows|
    ensures forall i | 0 <= i < n :: KeyOf(rows[i]) in ChannelMapPrefix(rows, n)
  {
    if n > 0 {
      ChannelMapComplete(rows, n - 1);
    }
  }
}
