/** What a rule hands to the risk gate. */
module Proposals {
  import opened Events

  datatype SupportFeature = SupportFeature(feature: Feature, score: int)

  datatype Proposal = Proposal(
    proposalId: StableId,
    caseKey: string,
    eventIds: seq<string>,
    checks: seq<Check>,
    links: seq<Link>,
    reasons: seq<Reason>,
    rules: seq<string>,
    features: seq<SupportFeature>,
    score: int,
    amountAtRisk: int,
    unique: bool,
    ambiguous: bool,
    invalid: bool
  )

  const RULES: seq<string> := [
    "exact_identifier_v1", "settlement_component_v1", "bank_receipt_v1",
    "erp_posting_v1", "bounded_grouping_v1", "candidate_support_v1"
  ]

  /** Look-up in `{check.check_code: check for check in checks}`: the last check of a code wins. */
  function Verdict(checks: seq<Check>, code: CheckCode): Option<bool> {
    if checks == [] then None
    else if checks[|checks| - 1].code == code then Some(checks[|checks| - 1].passed)
    else Verdict(checks[..|checks| - 1], code)
  }

  predicate RequiredPass(required: set<CheckCode>, checks: seq<Check>) {
    forall code | code in required :: Verdict(checks, code) == Some(true)
  }

  // ---- evidence without repeats -------------------------------------------------------------

  predicate Cites(links: seq<Link>, eventId: string, purpose: Purpose) {
    exists l | l in links :: l.eventId == eventId && l.purpose == purpose
  }

  /** The first link of each (event, purpose) pair, in order. */
  function FirstOfEach(links: seq<Link>): seq<Link> {
    if links == [] then []
    else
      var last, before := links[|links| - 1], links[..|links| - 1];
      FirstOfEach(before) + (if Cites(before, last.eventId, last.purpose) then [] else [last])
  }

  method UniqueEvidence(links: seq<Link>) returns (result: seq<Link>)
    ensures result == FirstOfEach(links)
  {
    var seen: set<(string, Purpose)> := {};
    result := [];
    for i := 0 to |links|
      invariant result == FirstOfEach(links[..i])
      invariant forall id, purpose :: (id, purpose) in seen <==> Cites(links[..i], id, purpose)
    {
      var link := links[i];
      assert links[..i + 1][..i] == links[..i];
      forall id, purpose ensures Cites(links[..i + 1], id, purpose)
          <==> Cites(links[..i], id, purpose) || (id == link.eventId && purpose == link.purpose) {
        assert links[..i + 1] == links[..i] + [link];
      }
      if (link.eventId, link.purpose) !in seen {
        result := result + [link];
        seen := seen + {(link.eventId, link.purpose)};
      }
    }
    assert links[..|links|] == links;
  }

  ghost predicate DistinctlyCited(links: seq<Link>) {
    forall i, j | 0 <= i < j < |links| :: links[i].eventId != links[j].eventId
  }

  /** Links to different events are all kept. */
  lemma {:induction false} NothingToDrop(links: seq<Link>)
    requires DistinctlyCited(links)
    ensures FirstOfEach(links) == links
  {
    if links != [] {
      var before, last := links[..|links| - 1], links[|links| - 1];
      NothingToDrop(before);
      assert !Cites(before, last.eventId, last.purpose);
      assert links == before + [last];
    }
  }

  /** `tuple(dict.fromkeys(reasons))`. */
  function WithoutRepeats(reasons: seq<Reason>): seq<Reason> {
    if reasons == [] then []
    else
      var last, before := reasons[|reasons| - 1], reasons[..|reasons| - 1];
      WithoutRepeats(before) + (if last in before then [] else [last])
  }

  lemma {:induction false} WithoutRepeatsMembers(reasons: seq<Reason>)
    ensures forall r :: r in WithoutRepeats(reasons) <==> r in reasons
  {
    if reasons != [] {
      WithoutRepeatsMembers(reasons[..|reasons| - 1]);
      assert reasons == reasons[..|reasons| - 1] + [reasons[|reasons| - 1]];
    }
  }
}
