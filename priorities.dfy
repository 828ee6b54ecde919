/**
 * Interrupt priorities on the nRF52832 under the SoftDevice. The NVIC has
 * three priority bits, so RTIC's logical priorities 1..8 map inversely onto
 * NVIC levels 7..0 (a lower NVIC number is more urgent). The SoftDevice
 * owns NVIC levels 0, 1 and 4 and serves application calls in its SVC
 * handler at NVIC level 4.
 */
module Priorities {
  const NVIC_PRIO_BITS: nat := 3

  /** The number of NVIC priority levels, 2 ^ NVIC_PRIO_BITS. */
  const PRIORITY_LEVELS: nat := 8

  type RticPriority = p: nat | 1 <= p <= PRIORITY_LEVELS witness 1
  type NvicPriority = n: nat | n < PRIORITY_LEVELS

  /** The NVIC level RTIC programs for a logical priority. */
  function NvicOf(p: RticPriority): (n: NvicPriority)
    ensures p < 8 ==> n > 0
  {
    PRIORITY_LEVELS - p
  }

  /** The logical RTIC priority of an NVIC level. */
  function RticOf(n: NvicPriority): (p: RticPriority)
    ensures n > 0 ==> p < 8
  {
    PRIORITY_LEVELS - n
  }

  /** The two numberings are inverse to each other and reverse the order. */
  lemma NumberingsAreInverse(p: RticPriority, q: RticPriority, n: NvicPriority)
    ensures RticOf(NvicOf(p)) == p && NvicOf(RticOf(n)) == n
    ensures p < q <==> NvicOf(q) < NvicOf(p)
  {
  }

  /** NVIC levels the SoftDevice reserves for itself. */
  const SOFTDEVICE_NVIC: set<nat> := {0, 1, 4}

  /** The NVIC level of the SoftDevice's SVC handler. */
  const SVC_NVIC: NvicPriority := 4

  /** RTIC priorities left for application tasks. */
  const USABLE_RTIC: set<nat> := {1, 2, 3, 5, 6}

  predicate Usable(p: RticPriority) {
    NvicOf(p) !in SOFTDEVICE_NVIC
  }

  /** Reserved NVIC levels 0, 1, 4 are RTIC priorities 8, 7, 4; all others are usable. */
  lemma ReservedAndUsableLevels()
    ensures RticOf(0) == 8 && RticOf(1) == 7 && RticOf(4) == 4
    ensures forall p: RticPriority :: Usable(p) <==> p in USABLE_RTIC
  {
  }

  /**
   * A task may call into the SoftDevice only when the SVC handler can
   * preempt it: its NVIC level must be numerically above the SVC level.
   */
  predicate MayCallSoftDevice(p: RticPriority) {
    NvicOf(p) > SVC_NVIC
  }

  /** The SVC rule in RTIC terms: exactly the priorities below 4, which are all usable. */
  lemma SvcRuleInRticTerms(p: RticPriority)
    ensures MayCallSoftDevice(p) <==> p < 4
    ensures MayCallSoftDevice(p) ==> Usable(p)
  {
  }
}
