/** The operations of a card runtime, as both implementations receive them. */
module Requests {
  import opened Prelude
  import opened Encoding
  import opened Domain

  datatype Request =
    | RegisterPanel(panel: PatchPanel)
    | CreateCard(panelId: string, payload: Json, metadata: Json, key: Option<string>)
    | ClaimCard(pipe: string, workerId: string, seconds: int, key: Option<string>)
    | SubmitArtifact(leaseId: Uuid, pipe: string, refs: seq<ArtifactReference>, key: Option<string>)
    | RenewLease(leaseId: Uuid, seconds: int, key: Option<string>)
    | ReleaseLease(leaseId: Uuid, actorId: Option<string>, key: Option<string>)
    | ExpireLeases
    | ValidateCard(cardId: Uuid, validatorId: string, accepted: bool, reason: Option<string>,
                   exit: Option<string>, payload: Json, key: Option<string>)
    | MoveCard(cardId: Uuid, toBucket: string, actorId: Option<string>, reason: Option<string>, key: Option<string>)
    | RecordEvent(cardId: Uuid, eventType: string, actorId: Option<string>, payload: Json, key: Option<string>)
  {
    function Key(): Option<string> {
      if RegisterPanel? || ExpireLeases? then None else key
    }
  }

  /** A request, the clock reading of the call, and the first of the fresh ids it draws:
      it uses `base`, `base + 1`, and so on. */
  datatype Call = Call(req: Request, now: Time, base: Uuid)

  /** What an operation returns. */
  datatype Reply =
    | PanelReply(panel: PatchPanel)
    | CardReply(card: Card)
    | LeaseReply(lease: Lease)
    | ArtifactsReply(refs: seq<ArtifactReference>)
    | EventReply(event: CardEvent)
    | LeasesReply(leases: seq<Lease>)

  /** The reply has the type the request's operation returns. */
  predicate Fits(req: Request, reply: Reply) {
    match req
    case RegisterPanel(_) => reply.PanelReply?
    case CreateCard(_, _, _, _) => reply.CardReply?
    case MoveCard(_, _, _, _, _) => reply.CardReply?
    case ClaimCard(_, _, _, _) => reply.LeaseReply?
    case RenewLease(_, _, _) => reply.LeaseReply?
    case ReleaseLease(_, _, _) => reply.LeaseReply?
    case SubmitArtifact(_, _, _, _) => reply.ArtifactsReply?
    case ExpireLeases => reply.LeasesReply?
    case ValidateCard(_, _, _, _, _, _, _) => reply.EventReply?
    case RecordEvent(_, _, _, _, _) => reply.EventReply?
  }

  /** The caller leaves the movement events and the `destination_bucket` entry to the runtime. */
  predicate ReservesMovement(req: Request) {
    && (req.RecordEvent? ==> req.eventType !in MOVEMENT_EVENTS)
    && (req.ValidateCard? ==> "destination_bucket" !in req.payload)
  }

  /** The caller leaves the lease events to the runtime. */
  predicate ReservesLeases(req: Request) {
    req.RecordEvent? ==> req.eventType !in LEASE_EVENTS
  }
}
