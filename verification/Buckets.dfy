/**
 * What usage is billed to: one bucket per service and attributed user.
 * Names are represented by their rank in the collation order of the source's
 * string comparison, so that comparison is `<` on ranks.
 */
module Buckets {
  import opened Prelude

  type ServiceId = nat
  type UserId = Option<nat>

  datatype Key = Key(service: ServiceId, user: UserId)

  /** Service first, then user, with unattributed usage last. */
  predicate KeyLess(left: Key, right: Key)
  {
    if left.service != right.service then left.service < right.service
    else if left.user == right.user then false
    else if left.user.None? then false
    else if right.user.None? then true
    else left.user.value < right.user.value
  }

  /** Services by name, then users by name, and what is attributed to nobody last. */
  lemma KeyOrder(left: Key, right: Key)
    ensures KeyLess(left, right)
      <==> left.service < right.service
           || (left.service == right.service && left.user.Some?
               && (right.user.None? || left.user.value < right.user.value))
  {}

  const MICROCREDITS_PER_CREDIT: nat := 1_000_000
  const MICRO_MINOR_PER_CREDIT: nat := 100_000
}
