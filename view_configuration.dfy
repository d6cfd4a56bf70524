/**
 * View configurations offered by a host, and the audio unit's size-acceptance policy.
 *
 * A host proposes a list of view configurations (a width and a height each); the
 * audio unit answers with the set of indices of the configurations it supports.
 * It supports the compact size (at most 400 by 100), the expanded size (at least
 * 800 by 500) and the zero-by-zero "default" sentinel, and rejects everything in
 * between.
 */
module ViewConfiguration {

  /** One view configuration. The source's configurations are objects compared by
      identity; `identity` stands for that object identity, so two configurations
      with the same size but distinct identities are different values here too.
      In the source an object's identity fixes its size; this type does not
      enforce that, so the model assumes that a value's `identity` is never
      shared with a value of another size (in particular, that host-made
      configurations do not reuse the identities 0 and 1 of the controller's
      own `Compact` and `Expanded`).
      Sizes are only ever compared, so they are modelled as reals. */
  datatype Config = Config(identity: nat, width: real, height: real, hostHasController: bool)

  /** The compact size bound (`min` in the source). */
  const MinWidth: real := 400.0
  const MinHeight: real := 100.0

  /** The expanded size bound (`max` in the source). */
  const MaxWidth: real := 800.0
  const MaxHeight: real := 500.0

  predicate IsCompactSize(width: real, height: real) {
    width <= MinWidth && height <= MinHeight
  }

  predicate IsExpandedSize(width: real, height: real) {
    width >= MaxWidth && height >= MaxHeight
  }

  /** `size == .zero`: both dimensions are zero. */
  predicate IsZeroSize(width: real, height: real) {
    width == 0.0 && height == 0.0
  }

  /** The acceptance test applied to each proposed configuration. */
  predicate IsSupported(c: Config) {
    IsCompactSize(c.width, c.height) || IsExpandedSize(c.width, c.height) || IsZeroSize(c.width, c.height)
  }

  /** The indices of `configs` that are supported, built up one entry at a time
      from the front of the list, as the source's loop does. */
  function AcceptedIndices(configs: seq<Config>): (accepted: set<nat>)
    ensures forall i: nat :: i in accepted <==> i < |configs| && IsSupported(configs[i])
  {
    if configs == [] then {}
    else
      var last := |configs| - 1;
      AcceptedIndices(configs[..last]) + if IsSupported(configs[last]) then {last} else {}
  }

  /** The audio unit's `supportedViewConfigurations`: walks the proposed list in
      order and inserts the index of every supported entry into the index set. */
  method SupportedViewConfigurations(available: seq<Config>) returns (indexSet: set<nat>)
    ensures forall i: nat :: i in indexSet <==> i < |available| && IsSupported(available[i])
    ensures indexSet == AcceptedIndices(available)
  {
    indexSet := {};
    for index := 0 to |available|
      invariant indexSet == AcceptedIndices(available[..index])
    {
      assert available[..index + 1][..index] == available[..index];
      if IsSupported(available[index]) {
        indexSet := indexSet + {index};
      }
    }
    assert available[..|available|] == available;
  }

  /** Whether an index is accepted depends on that entry's own width and height
      only: neither the other entries, nor the entry's identity, nor its
      host-controller flag matter. */
  lemma AcceptanceIsLocal(a: seq<Config>, b: seq<Config>, i: nat)
    requires i < |a| && i < |b|
    requires a[i].width == b[i].width && a[i].height == b[i].height
    ensures i in AcceptedIndices(a) <==> i in AcceptedIndices(b)
  {
  }

  /** Appending entries neither changes which earlier entries are accepted nor
      is affected by them: the accepted indices of a concatenation are those of
      each part, the second part's shifted past the first. */
  lemma AcceptedIndicesOfConcat(a: seq<Config>, b: seq<Config>)
    ensures AcceptedIndices(a + b) == AcceptedIndices(a) + set i | i in AcceptedIndices(b) :: |a| + i
  {
  }

  /** Every accepted index is a position of the proposed list. */
  lemma AcceptedIndicesInRange(configs: seq<Config>)
    ensures forall i :: i in AcceptedIndices(configs) ==> i < |configs|
  {
  }

  /** The zero-by-zero sentinel is accepted wherever it appears. */
  lemma ZeroSentinelAccepted(configs: seq<Config>, i: nat)
    requires i < |configs| && configs[i].width == 0.0 && configs[i].height == 0.0
    ensures i in AcceptedIndices(configs)
  {
  }

  /** The sentinel test adds nothing to the policy: a zero size already satisfies
      the compact bound. */
  lemma ZeroSentinelIsCompact(width: real, height: real)
    requires IsZeroSize(width, height)
    ensures IsCompactSize(width, height)
  {
  }

  /** A size that is neither compact nor expanded is rejected: wider than 400 or
      taller than 100, and narrower than 800 or shorter than 500. */
  lemma IntermediateRejected(c: Config)
    requires c.width > MinWidth || c.height > MinHeight
    requires c.width < MaxWidth || c.height < MaxHeight
    ensures !IsSupported(c)
  {
  }

  /** Two intermediate sizes: 600 by 300 lies between the bounds, and 800 by 100
      is as wide as the expanded size but too short for it and too wide for the
      compact one. */
  lemma IntermediateExamplesRejected(configs: seq<Config>)
    requires |configs| == 2
    requires configs[0].width == 600.0 && configs[0].height == 300.0
    requires configs[1].width == 800.0 && configs[1].height == 100.0
    ensures AcceptedIndices(configs) == {}
  {
    IntermediateRejected(configs[0]);
    IntermediateRejected(configs[1]);
  }
}
