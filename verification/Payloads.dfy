/** Values that travel between the service, the store and the engines. */
module Payloads {
  import opened Common

  /** A JSON field read with `.get`: absent, or a value compared only for equality. */
  type Field = Option<int>

  datatype KeywordRow = KeywordRow(keyword: Field, bid: Field, matchType: Field)

  datatype TargetInfo = TargetInfo(
    gender: Field, area: Field, age: Field, device: Field, crowds: seq<Field>, keywords: seq<Field>)

  datatype CampaignSpec = CampaignSpec(
    name: Field, marketingTarget: Field, placement: Field, biddingStrategy: Field, dayBudget: Field)

  datatype UnitSpec = UnitSpec(
    name: Field, targetType: Field, eventBid: Field, target: TargetInfo, keywords: seq<KeywordRow>)

  datatype CreativeSpec = CreativeSpec(note: Field, conversion: Field)

  /** The single create_cascade_info_list entry of a compiled plan. */
  datatype Payload = Payload(campaign: CampaignSpec, group: UnitSpec, creatives: seq<CreativeSpec>)

  /** SHA-256 over canonical JSON, taken as an injective function. */
  datatype Digest = Digest(content: Payload)

  function Sha(p: Payload): Digest {
    Digest(p)
  }

  datatype Plan = Plan(revision: Id, logicalKey: Id, payload: Payload, payloadSha: Digest)

  /** The plan's payload is the one its hash was taken from. */
  predicate Intact(plan: Plan) {
    Sha(plan.payload) == plan.payloadSha
  }

  predicate AllIntact(plans: seq<Plan>) {
    forall i :: 0 <= i < |plans| ==> Intact(plans[i])
  }

  datatype ObjectIds = ObjectIds(campaign: int, group: int, creativities: seq<int>)

  /** The codes of the errors the engines put in receipts. */
  datatype ErrorCode =
    | TransportError
    | OtherPlatformError(code: Id)
    | UnexpectedCreateError
    | CreateResponseAmbiguous
    | UnexpectedCreateResponse
    | UnexpectedPauseError
    | PauseResponseMissingObject
    | UnexpectedReadbackError
    | UnexpectedCampaignDiscovery
    | UnexpectedUnitDiscovery
    | UnexpectedCreativityDiscovery
    | CampaignAmbiguous
    | CampaignIdMissing
    | UnitAmbiguous
    | CreativityAmbiguous
    | PayloadShaMismatch
    | SpendCapNotArmed
    | EnableResponseMissingObject
    | ReleaseReadbackMismatch
    | InternalError

  datatype Difference =
    | CampaignCount
    | UnitCount
    | CreativityCount
    | CampaignName
    | MarketingTarget
    | Placement
    | BiddingStrategy
    | CampaignBudget
    | UnitName
    | TargetType
    | EventBid
    | TargetGender
    | TargetArea
    | TargetAge
    | TargetDevice
    | TargetCrowds
    | TargetBehaviorKeywords
    | KeywordsWithBid
    | CreativityMissing(id: int)
    | CreativityNote(id: int)
    | CreativityConversion(id: int)
    | PauseNotVerified
    | ObjectNotCreated
    | PlatformError(code: ErrorCode)

  datatype PlanReceipt = PlanReceipt(
    revision: Id, ids: Option<ObjectIds>, pauseVerified: bool, readbackVerified: bool, diff: seq<Difference>)

  datatype BatchStatus =
    | VerifiedPaused
    | ReconciledVerifiedPaused
    | ReconciledNotCreated
    | BatchReconcileRequired
    | BatchFailedTerminal
    | BatchRecoveryRequired
    | BatchPauseFailed
    | BatchReadbackMismatch
    | BatchRelockFailed

  datatype BatchReceipt = BatchReceipt(
    status: BatchStatus, receipts: seq<PlanReceipt>, relockReceipt: Option<int>, lockVerified: bool)

  /** What a stored success of a create or reconcile job promises: one receipt per plan, in plan
      order, each pause- and readback-verified, and the account lock verified. */
  predicate FullyVerified(plans: seq<Plan>, r: BatchReceipt) {
    && r.lockVerified
    && |r.receipts| == |plans|
    && forall i :: 0 <= i < |plans| ==>
         && r.receipts[i].revision == plans[i].revision
         && r.receipts[i].pauseVerified
         && r.receipts[i].readbackVerified
  }

  /** The campaign ids a batch receipt names. */
  function CampaignsOf(r: BatchReceipt): set<int> {
    set i | 0 <= i < |r.receipts| && r.receipts[i].ids.Some? :: r.receipts[i].ids.value.campaign
  }

  /** A spend cap: so much, in total or per day. */
  datatype SpendCap = SpendCap(fen: int, period: Id)

  /** What a release may do: which campaigns of which account, under which cap, watched by which monitor. */
  datatype ReleaseTerms = ReleaseTerms(advertiser: int, campaigns: seq<int>, cap: SpendCap, monitor: Id)

  datatype ReleaseStatus = ReleaseActive | ReleaseFailedSafe | ReleaseEmergency

  datatype ReleaseReceipt = ReleaseReceipt(
    status: ReleaseStatus, campaigns: seq<int>, cap: SpendCap, safetyReceipt: int, enabledIds: seq<int>,
    readbackEnabled: bool, relockReceipt: Option<int>, error: Option<ErrorCode>)

  datatype SpendStatus = WithinCap | CapExceededPaused | CapExceededRelockFailed

  datatype SpendReceipt = SpendReceipt(
    status: SpendStatus, campaigns: seq<int>, observed: int, cap: int, relockReceipt: Option<int>)

  /** The authorised external write: the `input` of EXECUTE_TEST and PRODUCTION_CREATE jobs. */
  datatype WriteOrder = WriteOrder(grant: Id, advertiser: int, production: bool, plans: seq<Plan>)

  datatype JobInput =
    | RequestInput(body: Id)
    | WriteInput(order: WriteOrder)
    | ReconcileInput(source: Id, order: WriteOrder)
    | ReleaseInput(grant: Id, terms: ReleaseTerms)
    | EvaluateInput(key: Id, grant: Id, advertiser: int, campaigns: seq<int>, cap: SpendCap)
    | RecoverInput(source: Id, grant: Id, advertiser: int, campaigns: seq<int>)

  datatype JobResult =
    | BatchResult(batch: BatchReceipt)
    | ReleaseResult(release: ReleaseReceipt)
    | SpendResult(spend: SpendReceipt)
    | RecoveryResult(safe: bool, relockReceipt: Option<int>)
    | ArtifactResult
    | WorkerException
}
