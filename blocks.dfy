/** WebsiteBlockManager: a block per website, with one stored action per
    automation the oracle suggests for it. */
module Blocks {
  import opened Values
  import opened Environment
  import opened Marqo

  /** One entry of the oracle's `actions` answer in analyze_website. */
  datatype ActionSuggestion = ActionSuggestion(
    name: string,
    navigationGoal: string,
    dataExtractionGoal: string,
    requiredInputs: seq<string>,
    outputSchema: Json)

  /** The record create_block returns. */
  datatype BlockRecord = BlockRecord(id: Id, name: string, kind: string, url: string, actions: seq<Id>)

  /** The action create_block stores for a suggestion: stamped with the
      block's id and url. */
  function SuggestedAction(blockId: Id, url: string, s: ActionSuggestion): ActionData {
    ActionData(blockId, s.name, s.navigationGoal, s.dataExtractionGoal, s.requiredInputs, s.outputSchema, url)
  }

  /** The actions create_block stores for `suggestions`, in order. */
  function SuggestedActions(blockId: Id, url: string, suggestions: seq<ActionSuggestion>, now: Time): map<Id, Action>
    decreases |suggestions|
  {
    if suggestions == [] then map[]
    else
      var n := |suggestions| - 1;
      SuggestedActions(blockId, url, suggestions[..n], now)[blockId + 1 + n := ActionOf(SuggestedAction(blockId, url, suggestions[n]), now)]
  }

  /** The k-th suggestion is stored under id `blockId + 1 + k`. */
  lemma {:induction false} SuggestedActionAt(blockId: Id, url: string, suggestions: seq<ActionSuggestion>, now: Time, k: nat)
    requires k < |suggestions|
    ensures var m := SuggestedActions(blockId, url, suggestions, now);
      blockId + 1 + k in m && m[blockId + 1 + k] == ActionOf(SuggestedAction(blockId, url, suggestions[k]), now)
    decreases |suggestions|
  {
    var n := |suggestions| - 1;
    if k < n {
      SuggestedActionAt(blockId, url, suggestions[..n], now, k);
      assert suggestions[..n][k] == suggestions[k];
    }
  }

  /** Nothing else is stored: every id lies right after the block's. */
  lemma {:induction false} SuggestedActionsIds(blockId: Id, url: string, suggestions: seq<ActionSuggestion>, now: Time, id: Id)
    requires id in SuggestedActions(blockId, url, suggestions, now)
    ensures blockId < id <= blockId + |suggestions|
    decreases |suggestions|
  {
    var n := |suggestions| - 1;
    if id != blockId + 1 + n {
      SuggestedActionsIds(blockId, url, suggestions[..n], now, id);
    }
  }

  /** Adding the suggested actions to a store whose ids all lie below the
      block's keeps every old action, stores the k-th suggestion under
      `ids[k]` and adds nothing else. */
  lemma CreatedActions(store: map<Id, Action>, blockId: Id, url: string, suggestions: seq<ActionSuggestion>, now: Time, ids: seq<Id>)
    requires forall id :: id in store ==> id < blockId
    requires |ids| == |suggestions| && forall k :: 0 <= k < |ids| ==> ids[k] == blockId + 1 + k
    ensures var m := store + SuggestedActions(blockId, url, suggestions, now);
      && (forall id :: id in store ==> id in m && m[id] == store[id])
      && (forall k :: 0 <= k < |ids| ==> ids[k] in m && m[ids[k]] == ActionOf(SuggestedAction(blockId, url, suggestions[k]), now))
      && (forall id :: id in m ==> id in store || id in ids)
  {
    var added := SuggestedActions(blockId, url, suggestions, now);
    forall id | id in store
      ensures id !in added
    {
      if id in added {
        SuggestedActionsIds(blockId, url, suggestions, now, id);
      }
    }
    forall k | 0 <= k < |ids|
      ensures ids[k] in added && added[ids[k]] == ActionOf(SuggestedAction(blockId, url, suggestions[k]), now)
    {
      SuggestedActionAt(blockId, url, suggestions, now, k);
    }
    forall id | id in added
      ensures id in ids
    {
      SuggestedActionsIds(blockId, url, suggestions, now, id);
      assert ids[id - blockId - 1] == id;
    }
  }

  class WebsiteBlockManager {
    const db: MarqoDatabase

    constructor (db: MarqoDatabase)
      ensures this.db == db
    {
      this.db := db;
    }

    /** create_block: store the block, then one action per suggestion, and
        return the block with the new action ids in suggestion order. The
        `acts` hint only feeds the oracle's prompt, so it is not a parameter. */
    method CreateBlock(name: string, url: string, suggestions: seq<ActionSuggestion>) returns (block: BlockRecord)
      requires db.Valid()
      modifies db, db.uuids
      ensures db.Valid()
      ensures block.id == old(db.uuids.next) && block.id !in old(db.blocks)
      ensures db.uuids.next == block.id + 1 + |suggestions|
      ensures block.name == name && block.kind == "website_based" && block.url == url
      ensures |block.actions| == |suggestions|
      ensures forall k :: 0 <= k < |block.actions| ==> block.actions[k] == block.id + 1 + k
      ensures db.blocks == old(db.blocks)[block.id := Block(name, "website_based", url, db.clock.now, db.clock.now)]
      ensures db.actions == old(db.actions) + SuggestedActions(block.id, url, suggestions, db.clock.now)
      ensures forall id :: id in old(db.actions) ==> id in db.actions && db.actions[id] == old(db.actions)[id]
      ensures forall k :: 0 <= k < |block.actions| ==>
        block.actions[k] in db.actions &&
        db.actions[block.actions[k]] == ActionOf(SuggestedAction(block.id, url, suggestions[k]), db.clock.now)
      ensures forall id :: id in db.actions ==> id in old(db.actions) || id in block.actions
      ensures db.flows == old(db.flows) && db.executions == old(db.executions)
      ensures db.executionLog == old(db.executionLog)
    {
      var blockId := db.StoreBlock(name, url);
      var actions: seq<Id> := [];
      var i := 0;
      while i < |suggestions|
        invariant 0 <= i <= |suggestions| && |actions| == i
        invariant db.Valid() && db.uuids.next == blockId + 1 + i
        invariant forall k :: 0 <= k < i ==> actions[k] == blockId + 1 + k
        invariant db.blocks == old(db.blocks)[blockId := Block(name, "website_based", url, db.clock.now, db.clock.now)]
        invariant db.actions == old(db.actions) + SuggestedActions(blockId, url, suggestions[..i], db.clock.now)
        invariant db.flows == old(db.flows) && db.executions == old(db.executions)
        invariant db.executionLog == old(db.executionLog)
      {
        ghost var before := db.actions;
        var id := db.StoreAction(SuggestedAction(blockId, url, suggestions[i]));
        assert suggestions[..i + 1][..i] == suggestions[..i];
        UpdateAfterUnion(old(db.actions), SuggestedActions(blockId, url, suggestions[..i], db.clock.now),
          id, ActionOf(SuggestedAction(blockId, url, suggestions[i]), db.clock.now));
        actions := actions + [id];
        i := i + 1;
      }
      assert suggestions[..i] == suggestions;
      block := BlockRecord(blockId, name, "website_based", url, actions);
      CreatedActions(old(db.actions), blockId, url, suggestions, db.clock.now, actions);
    }

    method GetAction(actionId: Id) returns (r: Option<Action>)
      ensures r.Some? <==> actionId in db.actions
      ensures r.Some? ==> r.value == db.actions[actionId]
    {
      r := db.GetAction(actionId);
    }
  }

  lemma UpdateAfterUnion<K, V>(a: map<K, V>, b: map<K, V>, k: K, v: V)
    ensures (a + b)[k := v] == a + b[k := v]
  {
  }
}
