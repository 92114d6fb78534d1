/**
 Vocabulary shared by the ledger, the archive protocol and the summary chain.
 Identifiers are compared only for equality, so a UUID is a number.  A payload hash is
 an injective function of the whole sealed record, so comparing hashes is comparing records.
 */
module MemoryModel {

  type Uuid = nat

  const MAX_DEPTH: nat := 256
  const MAX_EVENTS: nat := 8
  const MAX_UINT64: nat := 0xFFFF_FFFF_FFFF_FFFF

  datatype Option<+T> = None | Some(value: T)

  datatype Error = Invalid | Conflict | Gap | Branch | Busy | Cursor | NotFound

  datatype Result<+T> = Ok(value: T) | Err(error: Error)

  datatype Kind = Opening | Action | SkipManual | SkipTimeout | LegacyBaseline

  datatype Namespace = ClientRequests | OpeningRequests | TimeoutRequests | LegacyRequests

  /** The parts of the canonical payload that later code reads back. */
  datatype Payload = Payload(messages: seq<string>, narrative: string, summary: string, events: seq<string>)

  datatype Record = Record(
    commit: Uuid, timeline: Uuid, position: nat, kind: Kind, actor: Option<nat>,
    namespace: Namespace, request: Uuid, generation: Uuid, revision: nat,
    turnBefore: nat, turnAfter: nat, roundBefore: nat, roundAfter: nat, payload: Payload)

  function NamespaceOf(kind: Kind): Namespace {
    match kind
    case Opening => OpeningRequests
    case SkipTimeout => TimeoutRequests
    case LegacyBaseline => LegacyRequests
    case Action => ClientRequests
    case SkipManual => ClientRequests
  }

  /** Seal succeeds: every shape rule a record must meet before it is hashed. */
  predicate Sealed(r: Record) {
    && r.revision != 0
    && r.turnBefore <= r.turnAfter
    && r.roundBefore <= r.roundAfter
    && (r.actor.Some? ==> r.actor.value != 0)
    && (r.kind.Action? || r.kind.SkipManual? ==> r.actor.Some?)
    && r.namespace == NamespaceOf(r.kind)
    && (r.kind.LegacyBaseline? <==> r.position == 0)
    && r.position <= MAX_UINT64
  }
}
