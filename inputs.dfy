/** The set algebra behind check_missing_inputs: the inputs a flow's
    actions require that the caller did not provide. */
module Inputs {

  /** `set(required_inputs)` for one action. */
  function Elems(s: seq<string>): set<string> {
    set x | x in s
  }

  /** Every input some action requires; `reqs[i]` is the i-th action's
      required_inputs. */
  function AllRequired(reqs: seq<seq<string>>): set<string>
    decreases |reqs|
  {
    if reqs == [] then {} else AllRequired(reqs[..|reqs| - 1]) + Elems(reqs[|reqs| - 1])
  }

  /** The set check_missing_inputs has built after visiting the actions
      `reqs` in order: the union of `required_inputs - provided keys`. */
  function MissingInputs(reqs: seq<seq<string>>, provided: set<string>): (r: set<string>)
    ensures r !! provided && r <= AllRequired(reqs)
    decreases |reqs|
  {
    if reqs == [] then {}
    else MissingInputs(reqs[..|reqs| - 1], provided) + (Elems(reqs[|reqs| - 1]) - provided)
  }

  /** An input is missing exactly when it is not provided and some action
      requires it. */
  lemma {:induction false} MissingInputsMembership(reqs: seq<seq<string>>, provided: set<string>, x: string)
    ensures x in MissingInputs(reqs, provided) <==>
      x !in provided && exists i :: 0 <= i < |reqs| && x in reqs[i]
    decreases |reqs|
  {
    if reqs != [] {
      var n := |reqs| - 1;
      MissingInputsMembership(reqs[..n], provided, x);
      if x !in provided && exists i :: 0 <= i < |reqs| && x in reqs[i] {
        var i :| 0 <= i < |reqs| && x in reqs[i];
        if i < n {
          assert reqs[..n][i] == reqs[i];
        }
      }
      if x in MissingInputs(reqs[..n], provided) {
        var i :| 0 <= i < n && x in reqs[..n][i];
        assert x in reqs[i];
      }
    }
  }

  /** The union of the differences is the difference of the union. */
  lemma {:induction false} MissingIsRequiredMinusProvided(reqs: seq<seq<string>>, provided: set<string>)
    ensures MissingInputs(reqs, provided) == AllRequired(reqs) - provided
    decreases |reqs|
  {
    if reqs != [] {
      MissingIsRequiredMinusProvided(reqs[..|reqs| - 1], provided);
    }
  }

  /** With no inputs at all, every required input is missing. */
  lemma NothingProvided(reqs: seq<seq<string>>)
    ensures MissingInputs(reqs, {}) == AllRequired(reqs)
  {
    MissingIsRequiredMinusProvided(reqs, {});
  }

  /** Providing at least every required input leaves nothing missing. */
  lemma EverythingProvided(reqs: seq<seq<string>>, provided: set<string>)
    requires AllRequired(reqs) <= provided
    ensures MissingInputs(reqs, provided) == {}
  {
    MissingIsRequiredMinusProvided(reqs, provided);
  }

  /** The two checks of create_flow_from_prompt, before and after merging
      the extracted inputs, let the flow through exactly when every required
      input is provided or extracted. */
  lemma CheckThenRecheck(reqs: seq<seq<string>>, provided: set<string>, extracted: set<string>)
    ensures (MissingInputs(reqs, provided) == {} || MissingInputs(reqs, provided + extracted) == {})
      <==> AllRequired(reqs) <= provided + extracted
  {
    MissingIsRequiredMinusProvided(reqs, provided);
    MissingIsRequiredMinusProvided(reqs, provided + extracted);
  }

  /** Merging more inputs into the provided ones removes exactly those names
      from the missing set; it never adds a name. */
  lemma MergeRemovesMissing(reqs: seq<seq<string>>, provided: set<string>, extra: set<string>)
    ensures MissingInputs(reqs, provided + extra) == MissingInputs(reqs, provided) - extra
    ensures MissingInputs(reqs, provided + extra) <= MissingInputs(reqs, provided)
  {
    MissingIsRequiredMinusProvided(reqs, provided + extra);
    MissingIsRequiredMinusProvided(reqs, provided);
  }
}
