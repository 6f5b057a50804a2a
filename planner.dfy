/** The deterministic glue of create_flow_from_prompt once the oracle's and
    the similarity search's answers are fixed: which action ids the
    resolve-or-create phase and the sufficiency phase contribute. */
module Planner {
  import opened Values
  import opened Marqo
  import opened Blocks

  /** One action of the oracle's plan (or of its `missing_capabilities`). */
  datatype ActionPlan = ActionPlan(
    url: string,
    name: string,
    navigationGoal: string,
    dataExtractionGoal: string,
    requiredInputs: seq<string>)

  /** The answers the similarity search and the oracle give while one plan
      entry is resolved: the ranked block hits for its url, the ranked action
      hits for its text, and the actions analyze_website would suggest if a
      block has to be created. Each is consulted only on the branch that
      asks for it. */
  datatype Lookup = Lookup(blockHits: seq<Id>, actionHits: seq<Id>, suggestions: seq<ActionSuggestion>)

  datatype Candidate = Candidate(plan: ActionPlan, lookup: Lookup)

  /** Everything the planner learns from outside: the plan, the sufficiency
      verdict, the optimised id list and the inputs extracted from the prompt. */
  datatype PlannerAnswers = PlannerAnswers(
    flowName: string,
    flowDescription: string,
    candidates: seq<Candidate>,
    isSufficient: bool,
    missingCapabilities: seq<Candidate>,
    optimizedIds: seq<Id>,
    extractedInputs: Dict)

  datatype PlanError =
    | NoSuggestedAction(url: string)  // block["actions"][0] on a block without actions

  /** The ids a phase appends, and the next fresh id afterwards. */
  datatype Planned = Planned(ids: seq<Id>, next: Id)

  /** Put `prefix` in front of what the rest of a phase appends. */
  function Then(prefix: seq<Id>, rest: Result<Planned, PlanError>): Result<Planned, PlanError> {
    match rest
    case Success(p) => Success(Planned(prefix + p.ids, p.next))
    case Failure(e) => Failure(e)
  }

  lemma ThenNothing(rest: Result<Planned, PlanError>)
    ensures Then([], rest) == rest
  {
    if rest.Success? {
      assert [] + rest.value.ids == rest.value.ids;
    }
  }

  lemma ThenThen(a: seq<Id>, b: seq<Id>, rest: Result<Planned, PlanError>)
    ensures Then(a, Then(b, rest)) == Then(a + b, rest)
  {
    if rest.Success? {
      assert a + (b + rest.value.ids) == (a + b) + rest.value.ids;
    }
  }

  /** A plan entry whose url has a block but whose text search finds nothing
      contributes no action. */
  predicate Skipped(l: Lookup) {
    l.blockHits != [] && l.actionHits == []
  }

  /** Resolve-or-create (core.py:544-564), with `next` the next fresh id:
      reuse the top action hit when the url has a block, skip the entry when
      the text search is empty, and otherwise create a block, whose first
      suggested action (stored right after the block) is used. */
  function ResolvePlan(cands: seq<Candidate>, next: Id): (r: Result<Planned, PlanError>)
    ensures r.Success? ==> next <= r.value.next && |r.value.ids| <= |cands|
    decreases |cands|
  {
    if cands == [] then Success(Planned([], next))
    else
      var l := cands[0].lookup;
      if l.blockHits != [] then
        Then(if l.actionHits != [] then [l.actionHits[0]] else [], ResolvePlan(cands[1..], next))
      else if l.suggestions == [] then Failure(NoSuggestedAction(cands[0].plan.url))
      else Then([next + 1], ResolvePlan(cands[1..], next + 1 + |l.suggestions|))
  }

  /** The number of skipped entries. */
  function SkipCount(cands: seq<Candidate>): nat {
    if cands == [] then 0 else (if Skipped(cands[0].lookup) then 1 else 0) + SkipCount(cands[1..])
  }

  /** Every entry contributes exactly one id, except the skipped ones; each
      id is a reused top hit or a fresh id. */
  lemma {:induction false} ResolvePlanContributions(cands: seq<Candidate>, next: Id)
    ensures ResolvePlan(cands, next).Success? ==>
      var p := ResolvePlan(cands, next).value;
      && |p.ids| + SkipCount(cands) == |cands|
      && next <= p.next
      && forall id :: id in p.ids ==>
           (next <= id < p.next) || exists k :: 0 <= k < |cands| && cands[k].lookup.actionHits != [] && id == cands[k].lookup.actionHits[0]
    decreases |cands|
  {
    if cands != [] {
      var l := cands[0].lookup;
      var next' := if l.blockHits != [] then next else next + 1 + |l.suggestions|;
      ResolvePlanContributions(cands[1..], next');
      if ResolvePlan(cands, next).Success? {
        var p := ResolvePlan(cands, next).value;
        var q := ResolvePlan(cands[1..], next').value;
        forall id | id in q.ids && !(next' <= id < q.next)
          ensures exists k :: 0 <= k < |cands| && cands[k].lookup.actionHits != [] && id == cands[k].lookup.actionHits[0]
        {
          var k :| 0 <= k < |cands[1..]| && cands[1..][k].lookup.actionHits != [] && id == cands[1..][k].lookup.actionHits[0];
          assert cands[k + 1] == cands[1..][k];
        }
      }
    }
  }

  /** The sufficiency phase (core.py:596-623): each missing capability gets
      a new action, stored under the top block hit for its url, or as the
      first action of a newly created block. */
  function AddCapabilities(caps: seq<Candidate>, next: Id): (r: Result<Planned, PlanError>)
    ensures r.Success? ==> next <= r.value.next && |r.value.ids| == |caps|
    decreases |caps|
  {
    if caps == [] then Success(Planned([], next))
    else
      var l := caps[0].lookup;
      if l.blockHits != [] then Then([next], AddCapabilities(caps[1..], next + 1))
      else if l.suggestions == [] then Failure(NoSuggestedAction(caps[0].plan.url))
      else Then([next + 1], AddCapabilities(caps[1..], next + 1 + |l.suggestions|))
  }

  /** Both phases: resolve the plan, then, unless the oracle judged the
      result sufficient, add the missing capabilities after it. */
  function PlanPhases(answers: PlannerAnswers, next: Id): (r: Result<Planned, PlanError>)
    ensures var resolved := ResolvePlan(answers.candidates, next);
      && (r.Success? <==>
            resolved.Success? &&
            (answers.isSufficient || AddCapabilities(answers.missingCapabilities, resolved.value.next).Success?))
      && (r.Success? ==> resolved.value.ids <= r.value.ids && resolved.value.next <= r.value.next)
      && (r.Success? && answers.isSufficient ==> r == resolved)
  {
    match ResolvePlan(answers.candidates, next)
    case Failure(e) => Failure(e)
    case Success(p) =>
      if answers.isSufficient then Success(p)
      else Then(p.ids, AddCapabilities(answers.missingCapabilities, p.next))
  }

  /** A phase fails only on an entry whose url has no block and for which
      no action is suggested, and then with that entry's url. */
  lemma {:induction false} PhaseFailsWithoutSuggestions(cands: seq<Candidate>, next: Id, sufficiency: bool)
    ensures var r := if sufficiency then AddCapabilities(cands, next) else ResolvePlan(cands, next);
      r.Failure? ==> exists k :: 0 <= k < |cands| && cands[k].lookup.blockHits == [] &&
                                 cands[k].lookup.suggestions == [] && r.error == NoSuggestedAction(cands[k].plan.url)
    decreases |cands|
  {
    if cands != [] {
      var l := cands[0].lookup;
      var next' := if l.blockHits == [] then next + 1 + |l.suggestions| else if sufficiency then next + 1 else next;
      PhaseFailsWithoutSuggestions(cands[1..], next', sufficiency);
      var r := if sufficiency then AddCapabilities(cands, next) else ResolvePlan(cands, next);
      if r.Failure? && !(l.blockHits == [] && l.suggestions == []) {
        var k :| 0 <= k < |cands[1..]| && cands[1..][k].lookup.blockHits == [] &&
          cands[1..][k].lookup.suggestions == [] && r.error == NoSuggestedAction(cands[1..][k].plan.url);
        assert cands[k + 1] == cands[1..][k];
      }
    }
  }

  /** A plan entry whose url has no block and for which nothing is
      suggested: create_block stores a block without actions, and
      block["actions"][0] raises. */
  predicate Unsuggested(c: Candidate) {
    c.lookup.blockHits == [] && c.lookup.suggestions == []
  }

  /** The converse of PhaseFailsWithoutSuggestions: either phase fails when
      one of its entries is Unsuggested, and when `k` is the first such
      entry, with its url. */
  lemma {:induction false} PhaseFailsAtUnsuggested(cands: seq<Candidate>, next: Id, sufficiency: bool, k: nat)
    requires k < |cands| && Unsuggested(cands[k])
    ensures var r := if sufficiency then AddCapabilities(cands, next) else ResolvePlan(cands, next);
      && r.Failure?
      && ((forall j :: 0 <= j < k ==> !Unsuggested(cands[j])) ==> r.error == NoSuggestedAction(cands[k].plan.url))
    decreases k
  {
    if k > 0 && !Unsuggested(cands[0]) {
      var l := cands[0].lookup;
      var next' := if l.blockHits == [] then next + 1 + |l.suggestions| else if sufficiency then next + 1 else next;
      assert cands[1..][k - 1] == cands[k];
      PhaseFailsAtUnsuggested(cands[1..], next', sufficiency, k - 1);
      if forall j :: 0 <= j < k ==> !Unsuggested(cands[j]) {
        forall j | 0 <= j < k - 1
          ensures !Unsuggested(cands[1..][j])
        {
          assert cands[1..][j] == cands[j + 1];
        }
      }
    }
  }

  /** Every missing capability adds exactly one action, and all of them are
      new: fresh ids, in increasing order. */
  lemma {:induction false} AddCapabilitiesFresh(caps: seq<Candidate>, next: Id)
    ensures AddCapabilities(caps, next).Success? ==>
      var p := AddCapabilities(caps, next).value;
      && |p.ids| == |caps|
      && next <= p.next
      && (forall j :: 0 <= j < |p.ids| ==> next <= p.ids[j] < p.next)
      && (forall j, k :: 0 <= j < k < |p.ids| ==> p.ids[j] < p.ids[k])
    decreases |caps|
  {
    if caps != [] {
      var l := caps[0].lookup;
      var next' := if l.blockHits != [] then next + 1 else next + 1 + |l.suggestions|;
      AddCapabilitiesFresh(caps[1..], next');
    }
  }

  // ---------------------------------------------------------------------
  // What the two phases store

  /** The block and action collections of the store. */
  datatype Stores = Stores(blocks: map<Id, Block>, actions: map<Id, Action>)

  /** create_block("Block for " + name, url) with block id `id`: the block,
      then its suggested actions right after it. */
  function WithNewBlock(s: Stores, id: Id, c: Candidate, now: Time): Stores {
    Stores(s.blocks[id := Block("Block for " + c.plan.name, "website_based", c.plan.url, now, now)],
           s.actions + SuggestedActions(id, c.plan.url, c.lookup.suggestions, now))
  }

  /** The action the sufficiency phase stores under the top block hit: the
      capability's own text, with an empty output schema. */
  function CapabilityAction(c: Candidate, now: Time): Action
    requires c.lookup.blockHits != []
  {
    ActionOf(ActionData(c.lookup.blockHits[0], c.plan.name, c.plan.navigationGoal, c.plan.dataExtractionGoal,
                        c.plan.requiredInputs, JObject(map[]), c.plan.url), now)
  }

  /** The stores after resolve-or-create ran over `cands` from fresh id
      `next`; a failing entry has stored its block before it fails. Entries
      below `next` are kept, and every new one lies at or above it. */
  function ResolveStores(cands: seq<Candidate>, next: Id, now: Time, s: Stores): (r: Stores)
    ensures forall id :: id in s.blocks && id < next ==> id in r.blocks && r.blocks[id] == s.blocks[id]
    ensures forall id :: id in s.actions && id < next ==> id in r.actions && r.actions[id] == s.actions[id]
    ensures forall id :: id in r.blocks ==> id in s.blocks || next <= id
    ensures forall id :: id in r.actions ==> id in s.actions || next <= id
    decreases |cands|
  {
    if cands == [] then s
    else
      var l := cands[0].lookup;
      if l.blockHits != [] then ResolveStores(cands[1..], next, now, s)
      else
        var s' := WithNewBlock(s, next, cands[0], now);
        NewBlockAbove(s, next, cands[0], now);
        if l.suggestions == [] then s' else ResolveStores(cands[1..], next + 1 + |l.suggestions|, now, s')
  }

  /** The stores after the sufficiency phase ran over `caps` from fresh id
      `next`, with the same guarantees as ResolveStores. */
  function AddStores(caps: seq<Candidate>, next: Id, now: Time, s: Stores): (r: Stores)
    ensures forall id :: id in s.blocks && id < next ==> id in r.blocks && r.blocks[id] == s.blocks[id]
    ensures forall id :: id in s.actions && id < next ==> id in r.actions && r.actions[id] == s.actions[id]
    ensures forall id :: id in r.blocks ==> id in s.blocks || next <= id
    ensures forall id :: id in r.actions ==> id in s.actions || next <= id
    decreases |caps|
  {
    if caps == [] then s
    else
      var l := caps[0].lookup;
      if l.blockHits != [] then
        AddStores(caps[1..], next + 1, now, Stores(s.blocks, s.actions[next := CapabilityAction(caps[0], now)]))
      else
        var s' := WithNewBlock(s, next, caps[0], now);
        NewBlockAbove(s, next, caps[0], now);
        if l.suggestions == [] then s' else AddStores(caps[1..], next + 1 + |l.suggestions|, now, s')
  }

  /** The resolve-or-create loop after its first `i` entries: the ids it
      appended so far and the current stores lead to the same plan and the
      same stores as the whole phase. */
  ghost predicate ResolvedSoFar(cands: seq<Candidate>, start: Id, now: Time, s0: Stores,
                                i: nat, configs: seq<Id>, next: Id, s: Stores)
  {
    && i <= |cands|
    && ResolvePlan(cands, start) == Then(configs, ResolvePlan(cands[i..], next))
    && ResolveStores(cands, start, now, s0) == ResolveStores(cands[i..], next, now, s)
  }

  /** Entry `i` has a block: append its top action hit, if any. */
  lemma ResolvedReuse(cands: seq<Candidate>, start: Id, now: Time, s0: Stores, i: nat, configs: seq<Id>, next: Id, s: Stores)
    requires ResolvedSoFar(cands, start, now, s0, i, configs, next, s)
    requires i < |cands| && cands[i].lookup.blockHits != []
    ensures var l := cands[i].lookup;
      ResolvedSoFar(cands, start, now, s0, i + 1, configs + (if l.actionHits != [] then [l.actionHits[0]] else []), next, s)
  {
    var l := cands[i].lookup;
    assert cands[i..][0] == cands[i] && cands[i..][1..] == cands[i + 1..];
    ThenThen(configs, if l.actionHits != [] then [l.actionHits[0]] else [], ResolvePlan(cands[i + 1..], next));
  }

  /** Entry `i` has no block and nothing is suggested for it: the block is
      created under `next`, and the phase fails. */
  lemma ResolvedCreateFails(cands: seq<Candidate>, start: Id, now: Time, s0: Stores, i: nat, configs: seq<Id>, next: Id, s: Stores)
    requires ResolvedSoFar(cands, start, now, s0, i, configs, next, s)
    requires i < |cands| && cands[i].lookup.blockHits == [] && cands[i].lookup.suggestions == []
    ensures ResolvePlan(cands, start) == Failure(NoSuggestedAction(cands[i].plan.url))
    ensures ResolveStores(cands, start, now, s0) == WithNewBlock(s, next, cands[i], now)
  {
    assert cands[i..][0] == cands[i];
  }

  /** Entry `i` has no block: the block is created under `next` and its
      first suggested action is appended. */
  lemma ResolvedCreate(cands: seq<Candidate>, start: Id, now: Time, s0: Stores, i: nat, configs: seq<Id>, next: Id, s: Stores,
                        configs': seq<Id>, next': Id, s': Stores)
    requires ResolvedSoFar(cands, start, now, s0, i, configs, next, s)
    requires i < |cands| && cands[i].lookup.blockHits == [] && cands[i].lookup.suggestions != []
    requires configs' == configs + [next + 1] && next' == next + 1 + |cands[i].lookup.suggestions|
    requires s' == WithNewBlock(s, next, cands[i], now)
    ensures ResolvedSoFar(cands, start, now, s0, i + 1, configs', next', s')
  {
    assert cands[i..][0] == cands[i] && cands[i..][1..] == cands[i + 1..];
    ThenThen(configs, [next + 1], ResolvePlan(cands[i + 1..], next + 1 + |cands[i].lookup.suggestions|));
  }

  /** The sufficiency loop after its first `i` capabilities. */
  ghost predicate AddedSoFar(caps: seq<Candidate>, start: Id, now: Time, s0: Stores,
                             i: nat, configs: seq<Id>, next: Id, s: Stores)
  {
    && i <= |caps|
    && AddCapabilities(caps, start) == Then(configs, AddCapabilities(caps[i..], next))
    && AddStores(caps, start, now, s0) == AddStores(caps[i..], next, now, s)
  }

  /** Capability `i` has a block: its action is stored under `next`. */
  lemma AddedUnderHit(caps: seq<Candidate>, start: Id, now: Time, s0: Stores, i: nat, configs: seq<Id>, next: Id, s: Stores,
                       configs': seq<Id>, s': Stores)
    requires AddedSoFar(caps, start, now, s0, i, configs, next, s)
    requires i < |caps| && caps[i].lookup.blockHits != []
    requires configs' == configs + [next] && s' == Stores(s.blocks, s.actions[next := CapabilityAction(caps[i], now)])
    ensures AddedSoFar(caps, start, now, s0, i + 1, configs', next + 1, s')
  {
    assert caps[i..][0] == caps[i] && caps[i..][1..] == caps[i + 1..];
    ThenThen(configs, [next], AddCapabilities(caps[i + 1..], next + 1));
  }

  /** Capability `i` has no block and nothing is suggested for it. */
  lemma AddedCreateFails(caps: seq<Candidate>, start: Id, now: Time, s0: Stores, i: nat, configs: seq<Id>, next: Id, s: Stores)
    requires AddedSoFar(caps, start, now, s0, i, configs, next, s)
    requires i < |caps| && caps[i].lookup.blockHits == [] && caps[i].lookup.suggestions == []
    ensures AddCapabilities(caps, start) == Failure(NoSuggestedAction(caps[i].plan.url))
    ensures AddStores(caps, start, now, s0) == WithNewBlock(s, next, caps[i], now)
  {
    assert caps[i..][0] == caps[i];
  }

  /** Capability `i` has no block: its action is the new block's first. */
  lemma AddedCreate(caps: seq<Candidate>, start: Id, now: Time, s0: Stores, i: nat, configs: seq<Id>, next: Id, s: Stores,
                     configs': seq<Id>, next': Id, s': Stores)
    requires AddedSoFar(caps, start, now, s0, i, configs, next, s)
    requires i < |caps| && caps[i].lookup.blockHits == [] && caps[i].lookup.suggestions != []
    requires configs' == configs + [next + 1] && next' == next + 1 + |caps[i].lookup.suggestions|
    requires s' == WithNewBlock(s, next, caps[i], now)
    ensures AddedSoFar(caps, start, now, s0, i + 1, configs', next', s')
  {
    assert caps[i..][0] == caps[i] && caps[i..][1..] == caps[i + 1..];
    ThenThen(configs, [next + 1], AddCapabilities(caps[i + 1..], next + 1 + |caps[i].lookup.suggestions|));
  }

  /** A new block and its actions only add entries at or above its id. */
  lemma NewBlockAbove(s: Stores, id: Id, c: Candidate, now: Time)
    ensures var s' := WithNewBlock(s, id, c, now);
      && (forall k :: k in s.actions && k < id ==> k in s'.actions && s'.actions[k] == s.actions[k])
      && (forall k :: k in s'.actions ==> k in s.actions || id <= k)
  {
    var added := SuggestedActions(id, c.plan.url, c.lookup.suggestions, now);
    forall k | k in added
      ensures id < k
    {
      SuggestedActionsIds(id, c.plan.url, c.lookup.suggestions, now, k);
    }
  }

  /** The first suggested action of a new block sits right after it, with
      the block's url. */
  lemma NewBlockFirstAction(s: Stores, id: Id, c: Candidate, now: Time)
    requires c.lookup.suggestions != []
    ensures id + 1 in WithNewBlock(s, id, c, now).actions
    ensures WithNewBlock(s, id, c, now).actions[id + 1].url == c.plan.url
  {
    SuggestedActionAt(id, c.plan.url, c.lookup.suggestions, now, 0);
  }

  /** The stores after both phases, as create_flow_from_prompt runs them. */
  function PlanStores(answers: PlannerAnswers, next: Id, now: Time, s: Stores): (r: Stores)
    ensures forall id :: id in s.blocks && id < next ==> id in r.blocks && r.blocks[id] == s.blocks[id]
    ensures forall id :: id in s.actions && id < next ==> id in r.actions && r.actions[id] == s.actions[id]
    ensures forall id :: id in r.actions ==> id in s.actions || next <= id
  {
    var s' := ResolveStores(answers.candidates, next, now, s);
    match ResolvePlan(answers.candidates, next)
    case Failure(_) => s'
    case Success(p) => if answers.isSufficient then s' else AddStores(answers.missingCapabilities, p.next, now, s')
  }

  /** Every id the sufficiency phase returns names a stored action for its
      capability's url: the one stored under the top block hit, or the first
      suggested action of the block created for it. */
  lemma {:induction false} AddStoresHoldCapabilities(caps: seq<Candidate>, next: Id, now: Time, s: Stores)
    ensures AddCapabilities(caps, next).Success? ==>
      var ids, r := AddCapabilities(caps, next).value.ids, AddStores(caps, next, now, s);
      forall j :: 0 <= j < |ids| ==> ids[j] in r.actions && r.actions[ids[j]].url == caps[j].plan.url
    decreases |caps|, 2
  {
    if caps != [] && AddCapabilities(caps, next).Success? {
      if caps[0].lookup.blockHits != [] {
        HitCapability(caps, next, now, s);
      } else {
        NewBlockCapability(caps, next, now, s);
      }
    }
  }

  /** AddStoresHoldCapabilities when the first capability's url has a block. */
  lemma HitCapability(caps: seq<Candidate>, next: Id, now: Time, s: Stores)
    requires caps != [] && AddCapabilities(caps, next).Success? && caps[0].lookup.blockHits != []
    ensures var ids, r := AddCapabilities(caps, next).value.ids, AddStores(caps, next, now, s);
      forall j :: 0 <= j < |ids| ==> ids[j] in r.actions && r.actions[ids[j]].url == caps[j].plan.url
    decreases |caps|, 1
  {
    var s' := Stores(s.blocks, s.actions[next := CapabilityAction(caps[0], now)]);
    assert AddStores(caps, next, now, s) == AddStores(caps[1..], next + 1, now, s');
    ResumeCapabilities(caps, next, now, s, next, next + 1, s');
  }

  /** AddStoresHoldCapabilities when the first capability needs a new block. */
  lemma NewBlockCapability(caps: seq<Candidate>, next: Id, now: Time, s: Stores)
    requires caps != [] && AddCapabilities(caps, next).Success? && caps[0].lookup.blockHits == []
    ensures var ids, r := AddCapabilities(caps, next).value.ids, AddStores(caps, next, now, s);
      forall j :: 0 <= j < |ids| ==> ids[j] in r.actions && r.actions[ids[j]].url == caps[j].plan.url
    decreases |caps|, 1
  {
    var l := caps[0].lookup;
    assert l.suggestions != [];
    var s' := WithNewBlock(s, next, caps[0], now);
    NewBlockFirstAction(s, next, caps[0], now);
    var next' := next + 1 + |l.suggestions|;
    assert AddCapabilities(caps, next) == Then([next + 1], AddCapabilities(caps[1..], next'));
    assert AddStores(caps, next, now, s) == AddStores(caps[1..], next', now, s');
    ResumeCapabilities(caps, next, now, s, next + 1, next', s');
  }

  /** The inductive step of AddStoresHoldCapabilities, once the first
      capability has stored its action under `first`. */
  lemma ResumeCapabilities(caps: seq<Candidate>, next: Id, now: Time, s: Stores, first: Id, next': Id, s': Stores)
    requires caps != [] && AddCapabilities(caps, next).Success?
    requires AddCapabilities(caps, next) == Then([first], AddCapabilities(caps[1..], next'))
    requires AddStores(caps, next, now, s) == AddStores(caps[1..], next', now, s')
    requires first in s'.actions && s'.actions[first].url == caps[0].plan.url && first < next'
    ensures var ids, r := AddCapabilities(caps, next).value.ids, AddStores(caps, next, now, s);
      forall j :: 0 <= j < |ids| ==> ids[j] in r.actions && r.actions[ids[j]].url == caps[j].plan.url
    decreases |caps|, 0
  {
    var ids, r := AddCapabilities(caps, next).value.ids, AddStores(caps, next, now, s);
    var rest := AddCapabilities(caps[1..], next').value.ids;
    AddStoresHoldCapabilities(caps[1..], next', now, s');
    forall j | 0 <= j < |ids|
      ensures ids[j] in r.actions && r.actions[ids[j]].url == caps[j].plan.url
    {
      if j > 0 {
        assert ids[j] == rest[j - 1] && caps[j] == caps[1..][j - 1];
      }
    }
  }
}
