/** What a request is matched against, receipt by receipt and plan by plan. */
module RequestOutcomes {
  import opened Common
  import opened Payloads
  import opened PlanRevisions
  import opened Requests

  /** The receipt at k is the last one for this plan. */
  predicate LastFor(receipts: seq<PlanReceipt>, revision: Id, k: nat) {
    && k < |receipts| && receipts[k].revision == revision
    && forall m :: k < m < |receipts| ==> receipts[m].revision != revision
  }

  lemma {:induction false} ReceiptIsLast(receipts: seq<PlanReceipt>, revision: Id)
    ensures ReceiptOf(receipts, revision).None? <==> forall k: nat :: !LastFor(receipts, revision, k)
    ensures forall k: nat :: LastFor(receipts, revision, k) ==> ReceiptOf(receipts, revision) == Some(receipts[k])
  {
    if receipts != [] {
      var n := |receipts| - 1;
      if receipts[n].revision == revision {
        assert LastFor(receipts, revision, n);
      } else {
        ReceiptIsLast(receipts[..n], revision);
        forall k: nat ensures LastFor(receipts, revision, k) <==> LastFor(receipts[..n], revision, k) {
          if k < n {
            assert receipts[..n][k] == receipts[k];
          }
        }
      }
    }
  }

  /** The last receipt of the plan names these objects. */
  ghost predicate ReadBackAs(receipts: seq<PlanReceipt>, revision: Id, ids: ObjectIds) {
    exists k: nat :: LastFor(receipts, revision, k) && receipts[k].ids == Some(ids)
  }

  lemma ReadBackIsExact(receipts: seq<PlanReceipt>, revision: Id, ids: ObjectIds)
    ensures ReadBackAs(receipts, revision, ids) <==>
              ReceiptOf(receipts, revision).Some? && ReceiptOf(receipts, revision).value.ids == Some(ids)
  {
    ReceiptIsLast(receipts, revision);
  }

  ghost predicate AllReadBack(receipts: seq<PlanReceipt>, revisions: seq<Id>, objects: seq<ObjectIds>) {
    |objects| == |revisions| && forall i :: 0 <= i < |revisions| ==> ReadBackAs(receipts, revisions[i], objects[i])
  }

  lemma {:induction false} ObjectsAreExact(receipts: seq<PlanReceipt>, revisions: seq<Id>, objects: seq<ObjectIds>)
    ensures ExpectedObjects(receipts, revisions) == Some(objects) <==> AllReadBack(receipts, revisions, objects)
    decreases |revisions|
  {
    if revisions != [] && objects != [] {
      ObjectsAreExact(receipts, revisions[1..], objects[1..]);
      ReadBackIsExact(receipts, revisions[0], objects[0]);
      assert objects == [objects[0]] + objects[1..];
      if AllReadBack(receipts, revisions, objects) {
        forall i | 0 <= i < |revisions[1..]| ensures ReadBackAs(receipts, revisions[1..][i], objects[1..][i]) {
          assert ReadBackAs(receipts, revisions[i + 1], objects[i + 1]);
        }
      }
      if ReadBackAs(receipts, revisions[0], objects[0]) && AllReadBack(receipts, revisions[1..], objects[1..]) {
        forall i | 0 <= i < |revisions| ensures ReadBackAs(receipts, revisions[i], objects[i]) {
          assert i > 0 ==> revisions[i] == revisions[1..][i - 1] && objects[i] == objects[1..][i - 1];
        }
      }
      if ExpectedObjects(receipts, revisions) == Some(objects) {
        assert ExpectedObjects(receipts, revisions[1..]).value == objects[1..];
      }
    }
  }

  /** A release request matches a readback exactly if it lists the active plans ascending, each with the objects
      that the plan's last receipt names, and those objects' campaigns. */
  lemma MatchIsExact(request: ReleaseRequest, active: set<Id>, batch: BatchReceipt)
    ensures RequestMatches(request, active, batch) <==>
              && (forall i, k :: 0 <= i < k < |request.revisions| ==> request.revisions[i] < request.revisions[k])
              && (forall r :: r in request.revisions <==> r in active)
              && AllReadBack(batch.receipts, request.revisions, request.objects)
              && |request.campaigns| == |request.objects|
              && forall i :: 0 <= i < |request.objects| ==> request.campaigns[i] == request.objects[i].campaign
  {
    ObjectsAreExact(batch.receipts, request.revisions, request.objects);
    forall r ensures r in Members(request.revisions) <==> r in request.revisions {
    }
  }

  /** The plans of an enqueued create are, one by one, the granted revisions: each active with exactly the payload
      whose digest was granted. */
  lemma PlansAreGranted(plans: seq<Plan>, revisions: seq<Id>, hashes: seq<Digest>, active: map<Id, ActivePlan>, i: nat)
    requires PlansMatch(plans, revisions, hashes, active) && i < |plans|
    ensures |plans| == |revisions| == |hashes|
    ensures plans[i].revision == revisions[i] && plans[i].payloadSha == hashes[i]
    ensures hashes[i].content == plans[i].payload && revisions[i] in active
    ensures active[revisions[i]].platform == Some(plans[i].payload)
    ensures active[revisions[i]].logicalKey == plans[i].logicalKey
  {
    assert PlanMatches(plans[i], revisions[i], hashes[i], active);
  }
}
