/** The adversarial outside world: the Juguang client, the account lock and the release safety
    adapter. Every call may answer anything, refuse with a domain error, or break; the ghost trace
    records each call with its reply. */
module Platform {
  import opened Common
  import opened Payloads

  /** A call returned, raised a SeedingError with a code, or raised anything else. */
  datatype Reply<+T> = Answer(value: T) | Refused(code: ErrorCode) | Broken

  /** An id field of a response: missing, not convertible by int(), or a number. */
  datatype IdField = NoId | NotNumeric | Numeric(n: int)

  /** int(row.get(key, 0)); None when int() raises. */
  function ToInt(f: IdField): Option<int> {
    match f
    case NoId => Some(0)
    case NotNumeric => None
    case Numeric(n) => Some(n)
  }

  datatype CascadeUnit = CascadeUnit(id: IdField, creativities: seq<IdField>)

  datatype CascadeRow = CascadeRow(campaign: IdField, units: seq<CascadeUnit>)

  datatype CampaignRow = CampaignRow(
    id: IdField, name: Field, marketingTarget: Field, placement: Field, biddingStrategy: Field,
    dayBudget: Field, filterState: Field, enable: Field)

  datatype UnitRow = UnitRow(
    id: IdField, name: Field, unitName: Field, targetType: Field, eventBid: Field, target: TargetInfo,
    keywords: seq<KeywordRow>, enable: Field, filterState: Field)

  datatype CreativeRow = CreativeRow(id: IdField, note: Field, conversion: Field, enable: Field, filterState: Field)

  datatype Call =
    | Preflight(ok: bool)
    | Create(payload: Payload, created: Reply<seq<CascadeRow>>)
    | SetStatus(ids: seq<int>, enable: bool, acknowledged: Reply<seq<int>>)
    | ListCampaigns(ids: seq<int>, name: Field, campaigns: Reply<seq<CampaignRow>>)
    | ListUnits(ids: seq<int>, campaign: Option<int>, units: Reply<seq<UnitRow>>)
    | SearchCreatives(ids: seq<int>, group: Option<int>, creatives: Reply<seq<CreativeRow>>)
    | Relock(receipt: Reply<int>)
    | VerifyLocked(locked: Reply<bool>)
    | SafetyPreflight(ids: seq<int>, cap: SpendCap, monitor: Id, ok: bool)
    | ArmCap(ids: seq<int>, cap: SpendCap, armed: Reply<int>)
    | VerifyArmed(receiptId: int, verified: Reply<bool>)
    | CurrentSpend(ids: seq<int>, period: Id, spent: Reply<int>)
    | EmergencyRelock(ids: seq<int>, relocked: Reply<int>)
    | VerifyRelocked(relockId: int, confirmed: Reply<bool>)

  class World {
    ghost var calls: seq<Call>

    constructor ()
      ensures calls == []
    {
      calls := [];
    }

    method DoPreflight() returns (ok: bool)
      modifies this
      ensures calls == old(calls) + [Preflight(ok)]
    {
      ok := *;
      calls := calls + [Preflight(ok)];
    }

    method DoCreate(payload: Payload) returns (r: Reply<seq<CascadeRow>>)
      modifies this
      ensures calls == old(calls) + [Create(payload, r)]
    {
      r := *;
      calls := calls + [Create(payload, r)];
    }

    method DoSetStatus(ids: seq<int>, enable: bool) returns (r: Reply<seq<int>>)
      modifies this
      ensures calls == old(calls) + [SetStatus(ids, enable, r)]
    {
      r := *;
      calls := calls + [SetStatus(ids, enable, r)];
    }

    method DoListCampaigns(ids: seq<int>, name: Field) returns (r: Reply<seq<CampaignRow>>)
      modifies this
      ensures calls == old(calls) + [ListCampaigns(ids, name, r)]
    {
      r := *;
      calls := calls + [ListCampaigns(ids, name, r)];
    }

    method DoListUnits(ids: seq<int>, campaign: Option<int>) returns (r: Reply<seq<UnitRow>>)
      modifies this
      ensures calls == old(calls) + [ListUnits(ids, campaign, r)]
    {
      r := *;
      calls := calls + [ListUnits(ids, campaign, r)];
    }

    method DoSearchCreatives(ids: seq<int>, group: Option<int>) returns (r: Reply<seq<CreativeRow>>)
      modifies this
      ensures calls == old(calls) + [SearchCreatives(ids, group, r)]
    {
      r := *;
      calls := calls + [SearchCreatives(ids, group, r)];
    }

    method DoRelock() returns (r: Reply<int>)
      modifies this
      ensures calls == old(calls) + [Relock(r)]
    {
      r := *;
      calls := calls + [Relock(r)];
    }

    method DoVerifyLocked() returns (r: Reply<bool>)
      modifies this
      ensures calls == old(calls) + [VerifyLocked(r)]
    {
      r := *;
      calls := calls + [VerifyLocked(r)];
    }

    method DoSafetyPreflight(ids: seq<int>, cap: SpendCap, monitor: Id) returns (ok: bool)
      modifies this
      ensures calls == old(calls) + [SafetyPreflight(ids, cap, monitor, ok)]
    {
      ok := *;
      calls := calls + [SafetyPreflight(ids, cap, monitor, ok)];
    }

    method DoArmCap(ids: seq<int>, cap: SpendCap) returns (r: Reply<int>)
      modifies this
      ensures calls == old(calls) + [ArmCap(ids, cap, r)]
    {
      r := *;
      calls := calls + [ArmCap(ids, cap, r)];
    }

    method DoVerifyArmed(receipt: int) returns (r: Reply<bool>)
      modifies this
      ensures calls == old(calls) + [VerifyArmed(receipt, r)]
    {
      r := *;
      calls := calls + [VerifyArmed(receipt, r)];
    }

    method DoCurrentSpend(ids: seq<int>, period: Id) returns (r: Reply<int>)
      modifies this
      ensures calls == old(calls) + [CurrentSpend(ids, period, r)]
    {
      r := *;
      calls := calls + [CurrentSpend(ids, period, r)];
    }

    method DoEmergencyRelock(ids: seq<int>) returns (r: Reply<int>)
      modifies this
      ensures calls == old(calls) + [EmergencyRelock(ids, r)]
    {
      r := *;
      calls := calls + [EmergencyRelock(ids, r)];
    }

    method DoVerifyRelocked(receipt: int) returns (r: Reply<bool>)
      modifies this
      ensures calls == old(calls) + [VerifyRelocked(receipt, r)]
    {
      r := *;
      calls := calls + [VerifyRelocked(receipt, r)];
    }
  }
}
