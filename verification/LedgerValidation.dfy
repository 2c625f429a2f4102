/** Validation of decoded webhook bodies: identity, closed vocabularies, exact amounts, and a
    balance of zero for each rail and unit on its own. */
module LedgerValidation {
  import opened Common
  import opened Decimals
  import opened CanonicalInteger

  datatype Entry = Entry(
    id: string, entryType: string, sourceCommand: string, sourceEventID: string,
    effectiveAt: string, catalogVersion: string, policyVersion: string,
    metadata: Option<string>)

  datatype Posting = Posting(rail: string, accountCode: string, amount: string, unit: string)

  datatype Ledger = Ledger(
    eventID: string, businessID: string, sequence: int, entry: Entry, postings: seq<Posting>)

  datatype Notification = Notification(
    kind: string, businessID: string, featureCode: string,
    period: string, projected: string, limit: string)

  datatype Fault = EventIdentity | BusinessIdentity | EntryFields | PostingFields | PostingAmounts | Unbalanced

  datatype Verdict = Valid | Invalid(fault: Fault)

  const RAILS: set<string> := {"azeer_units", "provider_balance", "invoice"}
  const UNITS: set<string> := {"milliunit", "halala"}

  const LEDGER_TYPES: set<string> := {
    "subscription_activated", "subscription_change_scheduled", "subscription_cancellation_scheduled",
    "subscription_cancelled", "subscription_cancellation_revoked", "renewal_failed",
    "subscription_renewed", "azeer_units_topped_up", "provider_balance_topped_up",
    "provider_balance_refunded", "feature_budget_updated", "billing_account_depleted",
    "feature_paused_budget", "feature_paused_manual", "feature_resumed_manual", "usage_rejected",
    "usage_consumed", "included_units_expired", "purchased_units_expired",
    "promotional_units_expired", "promotional_units_granted", "monthly_included_units_granted",
    "outbox_retry_requested"
  }

  predicate ValidEntry(e: Entry) {
    && e.entryType in LEDGER_TYPES && e.sourceCommand != "" && e.sourceEventID != ""
    && e.effectiveAt != "" && e.catalogVersion != "" && e.policyVersion != "" && e.metadata.Some?
  }

  predicate ValidHeader(e: Ledger) {
    e.eventID != "" && e.eventID == e.entry.id && e.businessID != "" && e.sequence >= 1 && ValidEntry(e.entry)
  }

  predicate ValidLabels(p: Posting) {
    p.accountCode != "" && p.rail in RAILS && p.unit in UNITS
  }

  ghost predicate WellFormed(p: Posting) {
    ValidLabels(p) && SignedAmount(p.amount)
  }

  ghost predicate AllWellFormed(ps: seq<Posting>) {
    forall i :: 0 <= i < |ps| ==> WellFormed(ps[i])
  }

  /** The exact amount of a posting; anything that is not a number counts nothing. */
  function Amount(p: Posting): int {
    var a := SetString(p.amount);
    if a.None? then 0 else a.value
  }

  /** The sum of one balancing domain. */
  function Total(ps: seq<Posting>, rail: string, unit: string): int {
    if ps == [] then 0
    else
      var last := ps[|ps| - 1];
      Total(ps[..|ps| - 1], rail, unit) + if last.rail == rail && last.unit == unit then Amount(last) else 0
  }

  ghost predicate Balanced(ps: seq<Posting>) {
    forall rail, unit :: Total(ps, rail, unit) == 0
  }

  /** What both validators are meant to accept. */
  ghost predicate ValidLedger(e: Ledger) {
    ValidHeader(e) && AllWellFormed(e.postings) && Balanced(e.postings)
  }

  /** The totals are plain sums: each posting adds the integer its amount prints, "-0" nothing. */
  lemma TotalAddsPrintedAmounts(ps: seq<Posting>, p: Posting, n: int, rail: string, unit: string)
    requires IsInt64(n) && (p.amount == PrintInt(n) || (n == 0 && p.amount == "-0"))
    ensures Total([], rail, unit) == 0
    ensures Total(ps + [p], rail, unit) == Total(ps, rail, unit) + if p.rail == rail && p.unit == unit then n else 0
  {
    assert (ps + [p])[..|ps|] == ps;
    if p.amount == PrintInt(n) {
      ParseAfterPrint(n);
    } else {
      MinusZeroReadsZero();
    }
    hide PrintInt, SetString;
  }

  /** Postings balance exactly when no rail and unit, of whatever name, has a total but zero. */
  lemma BalancedExactly(ps: seq<Posting>)
    ensures Balanced(ps) ==> forall rail, unit :: Total(ps, rail, unit) == 0
    ensures !Balanced(ps) ==> exists rail, unit :: Total(ps, rail, unit) != 0
  {
    if Balanced(ps) {
      forall rail, unit ensures Total(ps, rail, unit) == 0 {}
    } else {
      var rail, unit :| Total(ps, rail, unit) != 0;
    }
  }

  /** What is accepted, field by field. */
  lemma ValidLedgersExactly(e: Ledger)
    ensures ValidLedger(e) <==>
              && e.eventID != "" && e.entry.id == e.eventID && e.businessID != "" && e.sequence >= 1
              && e.entry.entryType in LEDGER_TYPES && e.entry.sourceCommand != "" && e.entry.sourceEventID != ""
              && e.entry.effectiveAt != "" && e.entry.catalogVersion != "" && e.entry.policyVersion != ""
              && e.entry.metadata.Some?
              && (forall i :: 0 <= i < |e.postings| ==>
                    && e.postings[i].accountCode != ""
                    && (e.postings[i].rail == "azeer_units" || e.postings[i].rail == "provider_balance"
                        || e.postings[i].rail == "invoice")
                    && (e.postings[i].unit == "milliunit" || e.postings[i].unit == "halala")
                    && SignedAmount(e.postings[i].amount))
              && Balanced(e.postings)
  {
    hide SignedAmount;
    assert forall i :: 0 <= i < |e.postings| ==>
      (e.postings[i].rail in RAILS <==> (e.postings[i].rail == "azeer_units"
         || e.postings[i].rail == "provider_balance" || e.postings[i].rail == "invoice"));
    assert AllWellFormed(e.postings) <==> forall i :: 0 <= i < |e.postings| ==> WellFormed(e.postings[i]);
  }

  /** The Go balance key. */
  function BalanceKey(rail: string, unit: string): string {
    rail + "\0" + unit
  }

  lemma BalanceKeysAreDistinct(r: string, u: string, r': string, u': string)
    requires r in RAILS && r' in RAILS && u in UNITS && u' in UNITS
    requires BalanceKey(r, u) == BalanceKey(r', u')
    ensures r == r' && u == u'
  {
    var k, k' := BalanceKey(r, u), BalanceKey(r', u');
    assert k[|r|] == '\0' && k'[|r'|] == '\0';
    assert |r| == |r'|;
    assert k[..|r|] == r && k'[..|r'|] == r';
    assert k[|r| + 1..] == u && k'[|r'| + 1..] == u';
  }

  /** Postings outside a balancing domain leave its sum alone. */
  lemma {:induction false} NoPostingNoTotal(ps: seq<Posting>, rail: string, unit: string)
    requires forall i :: 0 <= i < |ps| ==> ps[i].rail != rail || ps[i].unit != unit
    ensures Total(ps, rail, unit) == 0
  {
    if ps != [] { NoPostingNoTotal(ps[..|ps| - 1], rail, unit); }
  }

  /** What the balances map of the Go loop holds after some postings. */
  ghost predicate Accumulates(balances: map<string, int>, ps: seq<Posting>) {
    && (forall r, u :: r in RAILS && u in UNITS && BalanceKey(r, u) in balances ==>
          balances[BalanceKey(r, u)] == Total(ps, r, u))
    && (forall i :: 0 <= i < |ps| ==> BalanceKey(ps[i].rail, ps[i].unit) in balances)
    && (forall k :: k in balances ==> exists r, u :: r in RAILS && u in UNITS && k == BalanceKey(r, u))
  }

  lemma TotalAfterOne(balances: map<string, int>, ps: seq<Posting>, p: Posting, r: string, u: string)
    requires AllWellFormed(ps) && WellFormed(p) && Accumulates(balances, ps) && r in RAILS && u in UNITS
    requires BalanceKey(r, u) in balances || (r == p.rail && u == p.unit)
    ensures Total(ps + [p], r, u)
         == (if BalanceKey(r, u) in balances then balances[BalanceKey(r, u)] else 0)
            + (if r == p.rail && u == p.unit then Amount(p) else 0)
  {
    assert (ps + [p])[..|ps|] == ps;
    if BalanceKey(r, u) !in balances { NoPostingNoTotal(ps, r, u); }
  }

  lemma AccumulateOne(balances: map<string, int>, ps: seq<Posting>, p: Posting)
    requires AllWellFormed(ps) && WellFormed(p) && Accumulates(balances, ps)
    ensures var k := BalanceKey(p.rail, p.unit);
            Accumulates(balances[k := (if k in balances then balances[k] else 0) + Amount(p)], ps + [p])
  {
    var k := BalanceKey(p.rail, p.unit);
    var balances' := balances[k := (if k in balances then balances[k] else 0) + Amount(p)];
    var ps' := ps + [p];
    hide Total, Amount, BalanceKey, SignedAmount;
    forall r, u | r in RAILS && u in UNITS && BalanceKey(r, u) in balances'
      ensures balances'[BalanceKey(r, u)] == Total(ps', r, u)
    {
      if BalanceKey(r, u) == k { BalanceKeysAreDistinct(r, u, p.rail, p.unit); }
      TotalAfterOne(balances, ps, p, r, u);
    }
    forall k' | k' in balances' ensures exists r, u :: r in RAILS && u in UNITS && k' == BalanceKey(r, u) {
      if k' != k { assert k' in balances; }
    }
  }

  lemma ZeroBalancesMeanBalanced(balances: map<string, int>, ps: seq<Posting>)
    requires AllWellFormed(ps) && Accumulates(balances, ps)
    ensures Balanced(ps) <==> forall k :: k in balances ==> balances[k] == 0
  {
    if forall k :: k in balances ==> balances[k] == 0 {
      forall rail, unit ensures Total(ps, rail, unit) == 0 {
        if i :| 0 <= i < |ps| && ps[i].rail == rail && ps[i].unit == unit {
          assert BalanceKey(rail, unit) in balances;
        } else {
          NoPostingNoTotal(ps, rail, unit);
        }
      }
    }
  }

  /** The posting that decides an early rejection: all before it are well formed. */
  ghost predicate FirstBadPosting(ps: seq<Posting>, i: int) {
    0 <= i < |ps| && AllWellFormed(ps[..i]) && !WellFormed(ps[i])
  }

  /** The Go validator. */
  method ValidateLedgerWebhook(event: Ledger) returns (verdict: Verdict)
    ensures verdict == Valid <==> ValidLedger(event)
    ensures verdict == Invalid(EventIdentity) <==>
              event.eventID == "" || event.entry.id == "" || event.eventID != event.entry.id
    ensures verdict == Invalid(Unbalanced) <==>
              ValidHeader(event) && AllWellFormed(event.postings) && !Balanced(event.postings)
    ensures verdict == Invalid(BusinessIdentity) <==>
              event.eventID != "" && event.eventID == event.entry.id && (event.businessID == "" || event.sequence < 1)
    ensures verdict == Invalid(EntryFields) <==>
              && event.eventID != "" && event.eventID == event.entry.id
              && event.businessID != "" && event.sequence >= 1 && !ValidEntry(event.entry)
    ensures verdict == Invalid(PostingFields) ==>
              exists i :: FirstBadPosting(event.postings, i) && !ValidLabels(event.postings[i])
    ensures verdict == Invalid(PostingAmounts) ==>
              exists i :: FirstBadPosting(event.postings, i) && ValidLabels(event.postings[i])
  {
    if event.eventID == "" || event.entry.id == "" || event.eventID != event.entry.id {
      return Invalid(EventIdentity);
    }
    if event.businessID == "" || event.sequence < 1 {
      return Invalid(BusinessIdentity);
    }
    if !ValidEntry(event.entry) {
      return Invalid(EntryFields);
    }
    hide SignedAmount, BalanceKey, Amount, Total, Balanced;
    var balances: map<string, int> := map[];
    for i := 0 to |event.postings|
      invariant AllWellFormed(event.postings[..i])
      invariant Accumulates(balances, event.postings[..i])
    {
      var posting := event.postings[i];
      assert event.postings[..i + 1] == event.postings[..i] + [posting];
      if !ValidLabels(posting) {
        assert FirstBadPosting(event.postings, i);
        return Invalid(PostingFields);
      }
      var exact := CheckSignedAmount(posting.amount);
      if !exact {
        assert FirstBadPosting(event.postings, i);
        return Invalid(PostingAmounts);
      }
      AccumulateOne(balances, event.postings[..i], posting);
      var key := BalanceKey(posting.rail, posting.unit);
      if key !in balances {
        balances := balances[key := 0];
      }
      balances := balances[key := balances[key] + Amount(posting)];
    }
    assert event.postings[..|event.postings|] == event.postings;
    ZeroBalancesMeanBalanced(balances, event.postings);
    var rest := balances.Keys;
    while rest != {}
      invariant rest <= balances.Keys
      invariant forall k :: k in balances && k !in rest ==> balances[k] == 0
      decreases rest
    {
      var key :| key in rest;
      if balances[key] != 0 {
        return Invalid(Unbalanced);
      }
      rest := rest - {key};
    }
    return Valid;
  }

  /** What the Python dict, keyed by (rail, unit), holds after some postings. */
  ghost predicate AccumulatesPairs(balances: map<(string, string), int>, ps: seq<Posting>) {
    && (forall k :: k in balances ==> balances[k] == Total(ps, k.0, k.1))
    && (forall i :: 0 <= i < |ps| ==> (ps[i].rail, ps[i].unit) in balances)
  }

  lemma AccumulatePair(balances: map<(string, string), int>, ps: seq<Posting>, p: Posting)
    requires AccumulatesPairs(balances, ps)
    ensures var k := (p.rail, p.unit);
            AccumulatesPairs(balances[k := (if k in balances then balances[k] else 0) + Amount(p)], ps + [p])
  {
    var ps' := ps + [p];
    assert ps'[..|ps|] == ps;
    if (p.rail, p.unit) !in balances { NoPostingNoTotal(ps, p.rail, p.unit); }
  }

  /** The Python validator: other order, other messages, same verdict. */
  method ValidateLedgerPython(event: Ledger) returns (verdict: Verdict)
    ensures verdict == Valid <==> ValidLedger(event)
    ensures verdict == Invalid(Unbalanced) <==>
              ValidHeader(event) && AllWellFormed(event.postings) && !Balanced(event.postings)
    ensures verdict == Invalid(PostingFields) ==>
              exists i :: FirstBadPosting(event.postings, i)
                && (event.postings[i].rail !in RAILS || event.postings[i].unit !in UNITS)
    ensures verdict == Invalid(PostingAmounts) ==>
              exists i :: FirstBadPosting(event.postings, i)
                && event.postings[i].rail in RAILS && event.postings[i].unit in UNITS
    ensures verdict == Invalid(BusinessIdentity) <==> event.eventID == "" || event.businessID == "" || event.sequence < 1
    ensures verdict == Invalid(EventIdentity) <==>
              event.eventID != "" && event.businessID != "" && event.sequence >= 1 && event.entry.id != event.eventID
    ensures verdict == Invalid(EntryFields) <==>
              && event.eventID != "" && event.entry.id == event.eventID
              && event.businessID != "" && event.sequence >= 1 && !ValidEntry(event.entry)
  {
    if event.eventID == "" || event.businessID == "" || event.sequence < 1 {
      return Invalid(BusinessIdentity);
    }
    if event.entry.id != event.eventID {
      return Invalid(EventIdentity);
    }
    if !ValidEntry(event.entry) {
      return Invalid(EntryFields);
    }
    var balances: map<(string, string), int> := map[];
    for i := 0 to |event.postings|
      invariant AllWellFormed(event.postings[..i])
      invariant AccumulatesPairs(balances, event.postings[..i])
    {
      var posting := event.postings[i];
      assert event.postings[..i + 1] == event.postings[..i] + [posting];
      if posting.rail !in RAILS || posting.unit !in UNITS {
        assert FirstBadPosting(event.postings, i);
        return Invalid(PostingFields);
      }
      SignedAmountsExactly(posting.amount);
      if posting.accountCode == "" || !PythonSigned(posting.amount) {
        assert FirstBadPosting(event.postings, i);
        return Invalid(PostingAmounts);
      }
      AccumulatePair(balances, event.postings[..i], posting);
      var key := (posting.rail, posting.unit);
      balances := balances[key := (if key in balances then balances[key] else 0) + Amount(posting)];
    }
    assert event.postings[..|event.postings|] == event.postings;
    if exists k :: k in balances && balances[k] != 0 {
      return Invalid(Unbalanced);
    }
    forall rail, unit ensures Total(event.postings, rail, unit) == 0 {
      if (rail, unit) !in balances { NoPostingNoTotal(event.postings, rail, unit); }
    }
    return Valid;
  }

  // ---- What the verdict does not depend on, and what a history of verdicts conserves ----

  lemma {:induction false} TotalOfConcat(ps: seq<Posting>, qs: seq<Posting>, rail: string, unit: string)
    ensures Total(ps + qs, rail, unit) == Total(ps, rail, unit) + Total(qs, rail, unit)
  {
    if qs == [] {
      assert ps + qs == ps;
    } else {
      assert (ps + qs)[..|ps + qs| - 1] == ps + qs[..|qs| - 1];
      TotalOfConcat(ps, qs[..|qs| - 1], rail, unit);
    }
  }

  function Without(qs: seq<Posting>, i: nat): seq<Posting>
    requires i < |qs|
  {
    qs[..i] + qs[i + 1..]
  }

  lemma TotalWithout(qs: seq<Posting>, i: nat, rail: string, unit: string)
    requires i < |qs|
    ensures Total(qs, rail, unit) == Total(Without(qs, i), rail, unit) + Total([qs[i]], rail, unit)
  {
    assert qs == qs[..i] + ([qs[i]] + qs[i + 1..]);
    TotalOfConcat(qs[..i], [qs[i]] + qs[i + 1..], rail, unit);
    TotalOfConcat([qs[i]], qs[i + 1..], rail, unit);
    TotalOfConcat(qs[..i], qs[i + 1..], rail, unit);
  }

  lemma MultisetWithout(qs: seq<Posting>, i: nat)
    requires i < |qs|
    ensures multiset(Without(qs, i)) == multiset(qs) - multiset{qs[i]}
  {
    assert qs == qs[..i] + ([qs[i]] + qs[i + 1..]);
    assert multiset(qs) == multiset(qs[..i]) + (multiset{qs[i]} + multiset(qs[i + 1..]));
  }

  lemma {:induction false} TotalOfPermutation(ps: seq<Posting>, qs: seq<Posting>, rail: string, unit: string)
    requires multiset(ps) == multiset(qs)
    ensures Total(ps, rail, unit) == Total(qs, rail, unit)
    decreases |ps|
  {
    if ps == [] {
      assert |multiset(qs)| == 0;
    } else {
      assert ps[0] in multiset(qs);
      var i :| 0 <= i < |qs| && qs[i] == ps[0];
      MultisetWithout(ps, 0);
      MultisetWithout(qs, i);
      TotalOfPermutation(Without(ps, 0), Without(qs, i), rail, unit);
      TotalWithout(ps, 0, rail, unit);
      TotalWithout(qs, i, rail, unit);
    }
  }

  /** The order of postings never decides a verdict. */
  lemma PermutingKeepsVerdict(e: Ledger, qs: seq<Posting>)
    requires multiset(e.postings) == multiset(qs)
    ensures ValidLedger(e) <==> ValidLedger(e.(postings := qs))
  {
    forall rail, unit ensures Total(e.postings, rail, unit) == Total(qs, rail, unit) {
      TotalOfPermutation(e.postings, qs, rail, unit);
    }
    SamePostings(e.postings, qs);
    SamePostings(qs, e.postings);
  }

  lemma SamePostings(ps: seq<Posting>, qs: seq<Posting>)
    requires multiset(ps) == multiset(qs)
    ensures AllWellFormed(ps) ==> AllWellFormed(qs)
  {
    forall i | 0 <= i < |qs| ensures qs[i] in ps {
      assert qs[i] in multiset(qs);
    }
  }

  function AllPostings(history: seq<Ledger>): seq<Posting> {
    if history == [] then [] else AllPostings(history[..|history| - 1]) + history[|history| - 1].postings
  }

  /** Conservation: over any history of accepted events no rail and unit gains or loses. */
  lemma {:induction false} AcceptedHistoryConserves(history: seq<Ledger>, rail: string, unit: string)
    requires forall i :: 0 <= i < |history| ==> ValidLedger(history[i])
    ensures Total(AllPostings(history), rail, unit) == 0
  {
    if history != [] {
      var init := history[..|history| - 1];
      AcceptedHistoryConserves(init, rail, unit);
      TotalOfConcat(AllPostings(init), history[|history| - 1].postings, rail, unit);
    }
  }

  // ---- Notifications ----

  ghost predicate ValidNotification(n: Notification) {
    && n.businessID != "" && n.featureCode != ""
    && n.kind in {"budget_warning", "budget_breached", "budget_paused",
                  "feature_paused_manual", "feature_resumed_manual"}
    && (n.kind in {"budget_warning", "budget_breached", "budget_paused"} ==> n.period != "")
    && (n.kind in {"budget_warning", "budget_breached"} ==> UnsignedAmount(n.projected) && UnsignedAmount(n.limit))
  }

  /** What is accepted, type by type. */
  lemma ValidNotificationsExactly(n: Notification)
    ensures n.kind in {"budget_warning", "budget_breached"} ==>
              (ValidNotification(n) <==> n.businessID != "" && n.featureCode != "" && n.period != ""
                                         && UnsignedAmount(n.projected) && UnsignedAmount(n.limit))
    ensures n.kind == "budget_paused" ==>
              (ValidNotification(n) <==> n.businessID != "" && n.featureCode != "" && n.period != "")
    ensures n.kind in {"feature_paused_manual", "feature_resumed_manual"} ==>
              (ValidNotification(n) <==> n.businessID != "" && n.featureCode != "")
    ensures ValidNotification(n) ==> n.kind in {"budget_warning", "budget_breached", "budget_paused",
                                                "feature_paused_manual", "feature_resumed_manual"}
  {
    hide UnsignedAmount;
    assert "feature_paused_manual"[0] != "budget_paused"[0] && "feature_resumed_manual"[0] != "budget_paused"[0];
    assert |"budget_warning"| != |"budget_paused"| && |"budget_breached"| != |"budget_paused"|;
  }

  method ValidateNotificationWebhook(event: Notification) returns (ok: bool)
    ensures ok <==> ValidNotification(event)
  {
    if event.businessID == "" || event.featureCode == "" {
      return false;
    }
    if event.kind == "budget_warning" || event.kind == "budget_breached" {
      var projected := CheckUnsignedAmount(event.projected);
      var limit := CheckUnsignedAmount(event.limit);
      return event.period != "" && projected && limit;
    }
    if event.kind == "budget_paused" {
      return event.period != "";
    }
    return event.kind == "feature_paused_manual" || event.kind == "feature_resumed_manual";
  }

  method ValidateNotificationPython(event: Notification) returns (ok: bool)
    ensures ok <==> ValidNotification(event)
  {
    if event.businessID == "" || event.featureCode == "" {
      return false;
    }
    UnsignedAmountsExactly(event.projected);
    UnsignedAmountsExactly(event.limit);
    if event.kind in {"budget_warning", "budget_breached"} {
      return event.period != "" && PythonUnsigned(event.projected) && PythonUnsigned(event.limit);
    } else if event.kind == "budget_paused" {
      return event.period != "";
    }
    return event.kind in {"feature_paused_manual", "feature_resumed_manual"};
  }
}
