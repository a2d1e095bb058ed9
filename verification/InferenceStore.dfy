/** The latest inference result of each session. */
module InferenceStore {
  import opened Seqs

  datatype InferenceResult = InferenceResult(
    sessionId: nat,
    queueSequenceId: nat,
    requestIndex: nat,
    isAttack: bool,
    receivedWallTime: int)

  datatype SessionInference = SessionInference(
    latest: InferenceResult,
    totalResultCount: nat,
    attackResultCount: nat,
    firstResultWallTime: int,
    lastResultWallTime: int)

  type Store = map<nat, SessionInference>

  function UpdateStep(store: Store, r: InferenceResult): Store
  {
    var attack := if r.isAttack then 1 else 0;
    if r.sessionId !in store then
      store[r.sessionId := SessionInference(r, 1, attack, r.receivedWallTime, r.receivedWallTime)]
    else
      var old_ := store[r.sessionId];
      store[r.sessionId := SessionInference(r, old_.totalResultCount + 1, old_.attackResultCount + attack,
                                            old_.firstResultWallTime, r.receivedWallTime)]
  }

  function ReplayResults(results: seq<InferenceResult>): Store
  {
    if results == [] then map[] else UpdateStep(ReplayResults(Init(results)), Last(results))
  }

  function OfSession(sid: nat): InferenceResult -> bool { (r: InferenceResult) => r.sessionId == sid }

  function Attack(): InferenceResult -> bool { (r: InferenceResult) => r.isAttack }

  /** The store holds, per session, the first and last result times, the last result, and exact counts
      of that session's results and of the attacks among them. */
  lemma {:induction false} StoreSummarisesResults(results: seq<InferenceResult>, sid: nat)
    ensures var mine := Filter(results, OfSession(sid));
      var store := ReplayResults(results);
      && (sid in store <==> mine != [])
      && (sid in store ==>
            store[sid] == SessionInference(Last(mine), |mine|, Count(mine, Attack()),
                                           mine[0].receivedWallTime, Last(mine).receivedWallTime))
  {
    if results != [] {
      StoreSummarisesResults(Init(results), sid);
      if Last(results).sessionId == sid {
        CountAppend(Filter(Init(results), OfSession(sid)), Last(results), Attack());
      }
    }
  }

  class InferenceResultStore {
    var sessions: Store
    ghost var results: seq<InferenceResult>

    ghost predicate Valid()
      reads this
    {
      sessions == ReplayResults(results)
    }

    constructor ()
      ensures Valid() && results == []
    {
      sessions, results := map[], [];
    }

    method Update(r: InferenceResult)
      requires Valid()
      modifies this
      ensures Valid() && results == old(results) + [r]
    {
      if r.sessionId !in sessions {
        sessions := sessions[r.sessionId := SessionInference(r, 0, 0, r.receivedWallTime, r.receivedWallTime)];
      }
      var state := sessions[r.sessionId];
      state := state.(latest := r, totalResultCount := state.totalResultCount + 1);
      if r.isAttack {
        state := state.(attackResultCount := state.attackResultCount + 1);
      }
      state := state.(lastResultWallTime := r.receivedWallTime);
      sessions := sessions[r.sessionId := state];
      results := results + [r];
      assert Init(results) == old(results);
    }

    /** The session's last result, if it has any. */
    method TryGetLatest(sessionId: nat) returns (r: Option<InferenceResult>)
      requires Valid()
      ensures var mine := Filter(results, OfSession(sessionId));
        r == if mine == [] then None else Some(Last(mine))
    {
      StoreSummarisesResults(results, sessionId);
      if sessionId !in sessions {
        return None;
      }
      return Some(sessions[sessionId].latest);
    }
  }
}
