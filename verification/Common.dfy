// Vocabulary shared by every store of the runtime (runtime/include/leanat/common.hpp).
module Common {

  const TWO64: int := 0x1_0000_0000_0000_0000
  const MAX64: int := TWO64 - 1

  // Unsigned 64-bit machine words.
  type u64 = n: int | 0 <= n < TWO64

  datatype Option<+T> = None | Some(value: T)

  datatype Result<+T, +E> = Ok(value: T) | Err(error: E)

  datatype HandleKind =
    | KTransaction | KHop | KEvent | KProcess | KWait | KResult | KConsumer | KScope
    | KTask | KAccess | KLease | KResourceTicket | KSpawnTicket | KDrain | KGateTicket

  // Handles are compared field by field.
  datatype Handle = Handle(kind: HandleKind, domain: nat, store: nat, slot: nat, generation: nat, owner: nat)

  // Position of a handle kind in its enumeration.
  function KindIndex(k: HandleKind): nat {
    match k
    case KTransaction => 0 case KHop => 1 case KEvent => 2 case KProcess => 3 case KWait => 4
    case KResult => 5 case KConsumer => 6 case KScope => 7 case KTask => 8 case KAccess => 9
    case KLease => 10 case KResourceTicket => 11 case KSpawnTicket => 12 case KDrain => 13
    case KGateTicket => 14
  }

  // Batches are ordered by time, then by turn within one time.
  datatype ReadyKey = ReadyKey(time: nat, turn: nat) {
    predicate Less(other: ReadyKey) {
      time < other.time || (time == other.time && turn < other.turn)
    }
  }
}
