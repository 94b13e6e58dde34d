/**
 * Releases: a version with a target date and the models (one per country and
 * segment) that ship in it. Two hooks keep them. `ReleasesLocal` stores
 * whole release documents in the local backend's `releases` table: every
 * operation computes the new model list from the page state, PATCHes the
 * release and, when that succeeds, refetches the table. `ReleasesHook`
 * stores releases and models as rows of two database tables and joins them
 * when fetching.
 */
module Releases {
  import opened Wrappers
  import opened Text
  import opened Storage
  import opened Tracker

  /** The identifiers recorded when a model is confirmed; each may be absent. */
  datatype ReleaseModelIds = ReleaseModelIds(
    modelOut: Option<string>, modelIn: Option<string>, rulesOut: Option<string>, rulesIn: Option<string>)

  /**
   * A model of a release. The last four fields are the workflow the local
   * hook tracks per model; they are absent on models created by a release.
   */
  datatype ReleaseModel = ReleaseModel(
    id: string, country: string, segment: Segment, included: bool, confirmed: bool,
    modelIds: Option<ReleaseModelIds>, confirmedAt: Option<string>,
    rounds: Option<seq<WorkflowRound>>, currentRound: Option<int>,
    status: Option<ProjectStatus>, awaitingConfirmation: Option<bool>)

  datatype Release = Release(
    id: string, version: string, targetDate: string, models: seq<ReleaseModel>,
    createdAt: string, updatedAt: string, completed: bool)

  /** A model just added to a release: included, not confirmed, no workflow yet. */
  function NewModel(id: string, country: string, segment: Segment): (m: ReleaseModel)
    ensures m.included && !m.confirmed && m.modelIds.None? && m.rounds.None?
  {
    ReleaseModel(id, country, segment, true, false, None, None, None, None, None, None)
  }

  // ---------------------------------------------------------------------------
  // Model-list transitions of the local hook

  /** Flips `included` of the models with the id. */
  function ToggleModels(models: seq<ReleaseModel>, modelId: string): (r: seq<ReleaseModel>)
    ensures |r| == |models|
    ensures forall i :: 0 <= i < |models| && models[i].id != modelId ==> r[i] == models[i]
    ensures forall i :: 0 <= i < |models| && models[i].id == modelId ==>
              r[i].included == !models[i].included && r[i] == models[i].(included := r[i].included)
  {
    seq(|models|, i requires 0 <= i < |models| =>
      if models[i].id == modelId then models[i].(included := !models[i].included) else models[i])
  }

  /** Toggling twice restores the list. */
  lemma ToggleTwice(models: seq<ReleaseModel>, modelId: string)
    ensures ToggleModels(ToggleModels(models, modelId), modelId) == models
  {
    var once := ToggleModels(models, modelId);
    var twice := ToggleModels(once, modelId);
    forall i | 0 <= i < |models|
      ensures twice[i] == models[i]
    {
      if models[i].id == modelId {
        assert once[i].id == modelId;
      }
    }
  }

  /** Marks the models with the id confirmed, with the given ids and time. */
  function ConfirmModels(models: seq<ReleaseModel>, modelId: string, ids: ReleaseModelIds, now: string): (r: seq<ReleaseModel>)
    ensures |r| == |models|
    ensures forall i :: 0 <= i < |models| && models[i].id != modelId ==> r[i] == models[i]
    ensures forall i :: 0 <= i < |models| && models[i].id == modelId ==>
              r[i] == models[i].(confirmed := true, modelIds := Some(ids), confirmedAt := Some(now))
  {
    seq(|models|, i requires 0 <= i < |models| =>
      if models[i].id == modelId then models[i].(confirmed := true, modelIds := Some(ids), confirmedAt := Some(now))
      else models[i])
  }

  /** Confirming again with the same ids and time changes nothing more. */
  lemma ConfirmIdempotent(models: seq<ReleaseModel>, modelId: string, ids: ReleaseModelIds, now: string)
    ensures ConfirmModels(ConfirmModels(models, modelId, ids, now), modelId, ids, now) == ConfirmModels(models, modelId, ids, now)
  {
    var once := ConfirmModels(models, modelId, ids, now);
    assert forall i :: 0 <= i < |models| ==> once[i].id == models[i].id;
  }

  predicate HasPair(models: seq<ReleaseModel>, country: string, segment: Segment) {
    exists i :: 0 <= i < |models| && models[i].country == country && models[i].segment == segment
  }

  /** No two models of a release share a (country, segment) pair. */
  predicate UniquePairs(models: seq<ReleaseModel>) {
    forall i, j :: 0 <= i < j < |models| ==>
      (models[i].country, models[i].segment) != (models[j].country, models[j].segment)
  }

  /** The list after `addModelToRelease`, or None when the pair is already there (nothing is saved). */
  function AddModel(models: seq<ReleaseModel>, country: string, segment: Segment, newId: string): (r: Option<seq<ReleaseModel>>)
    ensures r.None? <==> HasPair(models, country, segment)
    ensures r.Some? ==> r.value == models + [NewModel(newId, country, segment)]
  {
    if HasPair(models, country, segment) then None else Some(models + [NewModel(newId, country, segment)])
  }

  /** Adding keeps (country, segment) pairs unique, and the pair is present afterwards. */
  lemma AddModelKeepsPairsUnique(models: seq<ReleaseModel>, country: string, segment: Segment, newId: string)
    requires UniquePairs(models)
    ensures var r := AddModel(models, country, segment, newId).GetOr(models);
            UniquePairs(r) && HasPair(r, country, segment)
  {
    var r := AddModel(models, country, segment, newId).GetOr(models);
    if !HasPair(models, country, segment) {
      assert r[|models|].country == country && r[|models|].segment == segment;
      forall i | 0 <= i < |models|
        ensures (r[i].country, r[i].segment) != (r[|models|].country, r[|models|].segment)
      {
        assert r[i] == models[i];
      }
    }
  }

  /** Drops the models with the id. */
  function RemoveModels(models: seq<ReleaseModel>, modelId: string): (r: seq<ReleaseModel>)
    ensures forall m :: m in r <==> m in models && m.id != modelId
  {
    Filter(models, (m: ReleaseModel) => m.id != modelId)
  }

  /** Removal distributes over concatenation, so the other models keep their order. */
  lemma RemoveModelsConcat(a: seq<ReleaseModel>, b: seq<ReleaseModel>, modelId: string)
    ensures RemoveModels(a + b, modelId) == RemoveModels(a, modelId) + RemoveModels(b, modelId)
  {
    FilterConcat(a, b, (m: ReleaseModel) => m.id != modelId);
  }

  /** Removing keeps (country, segment) pairs unique. */
  lemma RemoveModelsKeepsPairsUnique(models: seq<ReleaseModel>, modelId: string)
    requires UniquePairs(models)
    ensures UniquePairs(RemoveModels(models, modelId))
    decreases |models|
  {
    if |models| > 0 {
      assert models == [models[0]] + models[1..];
      RemoveModelsConcat([models[0]], models[1..], modelId);
      RemoveModelsKeepsPairsUnique(models[1..], modelId);
      var rest := RemoveModels(models[1..], modelId);
      if models[0].id != modelId {
        forall j | 0 <= j < |rest|
          ensures (rest[j].country, rest[j].segment) != (models[0].country, models[0].segment)
        {
          assert rest[j] in models[1..];
          var k :| 0 <= k < |models[1..]| && models[1..][k] == rest[j];
          assert models[k + 1] == rest[j];
        }
        assert RemoveModels([models[0]], modelId) == [models[0]];
      } else {
        assert RemoveModels([models[0]], modelId) == [];
      }
      assert RemoveModels(models, modelId) == RemoveModels([models[0]], modelId) + rest;
    }
  }

  /** Sets the status of the models with the id. */
  function SetModelStatus(models: seq<ReleaseModel>, modelId: string, status: ProjectStatus): (r: seq<ReleaseModel>)
    ensures |r| == |models|
    ensures forall i :: 0 <= i < |models| && models[i].id != modelId ==> r[i] == models[i]
    ensures forall i :: 0 <= i < |models| && models[i].id == modelId ==> r[i] == models[i].(status := Some(status))
  {
    seq(|models|, i requires 0 <= i < |models| =>
      if models[i].id == modelId then models[i].(status := Some(status)) else models[i])
  }

  /** The position of the first model with the id. */
  function FindModel(models: seq<ReleaseModel>, modelId: string): (r: Option<nat>)
    ensures r.Some? ==> r.value < |models| && models[r.value].id == modelId
    ensures r.Some? ==> forall j :: 0 <= j < r.value ==> models[j].id != modelId
    ensures r.None? <==> forall j :: 0 <= j < |models| ==> models[j].id != modelId
    decreases |models|
  {
    if |models| == 0 then None
    else if models[0].id == modelId then Some(0)
    else match FindModel(models[1..], modelId)
      case None => None
      case Some(k) => Some(k + 1)
  }

  /** `currentRound || 1`: absent or 0 counts as round 1. */
  function RoundOrFirst(currentRound: Option<int>): int {
    if currentRound.Some? && currentRound.value != 0 then currentRound.value else 1
  }

  /**
   * The list after `updateModelStep`, or None when the model or its current
   * round is missing. The rounds are those of the first model with the id,
   * with the current round moved to `step`; step 3 also sets the status to
   * waiting and raises `awaitingConfirmation`.
   */
  function UpdateModelStep(models: seq<ReleaseModel>, modelId: string, step: WorkflowStep, now: string): (r: Option<seq<ReleaseModel>>)
    ensures r.Some? ==> |r.value| == |models|
    ensures r.Some? ==> forall i :: 0 <= i < |models| && models[i].id != modelId ==> r.value[i] == models[i]
  {
    match FindModel(models, modelId)
    case None => None
    case Some(k) =>
      match SteppedRounds(models[k].rounds.GetOr([]), RoundOrFirst(models[k].currentRound), step, now)
      case None => None
      case Some(updatedRounds) =>
        Some(seq(|models|, i requires 0 <= i < |models| =>
          if models[i].id == modelId then
            models[i].(rounds := Some(updatedRounds),
                       status := if step == 3 then Some(Waiting) else models[i].status,
                       awaitingConfirmation := if step == 3 then Some(true) else models[i].awaitingConfirmation)
          else models[i]))
  }

  /**
   * `updateModelStep` acts on the current round only: that round gets the
   * step (and, for step 3, `completedAt`), the other rounds are untouched;
   * step 3 sets status waiting and the confirmation flag, other steps keep
   * them.
   */
  lemma UpdateModelStepEffect(models: seq<ReleaseModel>, modelId: string, step: WorkflowStep, now: string)
    requires FindModel(models, modelId).Some?
    ensures var k := FindModel(models, modelId).value;
            var rounds := models[k].rounds.GetOr([]);
            var idx := FindRound(rounds, RoundOrFirst(models[k].currentRound));
            var r := UpdateModelStep(models, modelId, step, now);
            (idx.None? <==> r.None?) &&
            (r.Some? ==>
               var m := r.value[k];
               m.rounds.Some? && |m.rounds.value| == |rounds| &&
               m.rounds.value[idx.value].currentStep == step &&
               m.rounds.value[idx.value].roundNumber == rounds[idx.value].roundNumber &&
               (step == 3 ==> m.rounds.value[idx.value].completedAt == Some(now)) &&
               (forall j :: 0 <= j < |rounds| && j != idx.value ==> m.rounds.value[j] == rounds[j]) &&
               (step == 3 ==> m.status == Some(Waiting) && m.awaitingConfirmation == Some(true)) &&
               (step != 3 ==> m.status == models[k].status && m.awaitingConfirmation == models[k].awaitingConfirmation))
  {
  }

  /**
   * The list after `startModelNewRound`, or None when the model is missing:
   * the round number is `(currentRound || 1) + 1` of the first model with
   * the id; every model with the id gets it, a new step-1 round after its
   * own rounds, status in progress and no pending confirmation.
   */
  function StartModelNewRound(models: seq<ReleaseModel>, modelId: string, testType: TestType, newId: string, now: string): (r: Option<seq<ReleaseModel>>)
    ensures r.None? <==> FindModel(models, modelId).None?
    ensures r.Some? ==> |r.value| == |models|
    ensures r.Some? ==> forall i :: 0 <= i < |models| && models[i].id != modelId ==> r.value[i] == models[i]
  {
    match FindModel(models, modelId)
    case None => None
    case Some(k) =>
      var n := RoundOrFirst(models[k].currentRound) + 1;
      Some(seq(|models|, i requires 0 <= i < |models| =>
        if models[i].id == modelId then
          models[i].(currentRound := Some(n),
                     rounds := Some(models[i].rounds.GetOr([]) + [FreshRound(newId, n, testType, now)]),
                     status := Some(InProgress),
                     awaitingConfirmation := Some(false))
        else models[i]))
  }

  /**
   * A new round keeps the earlier rounds, numbers itself one past the
   * current round, and is the round a following `updateModelStep` finds
   * (so, by `UpdateModelStepEffect`, the one it moves), provided the
   * current round is positive and no earlier round already carries the new
   * number.
   */
  lemma NewRoundThenStep(models: seq<ReleaseModel>, modelId: string, testType: TestType, newId: string, now: string)
    requires FindModel(models, modelId).Some?
    requires var m := models[FindModel(models, modelId).value];
             RoundOrFirst(m.currentRound) >= 1 &&
             forall j :: 0 <= j < |m.rounds.GetOr([])| ==>
               m.rounds.GetOr([])[j].roundNumber != RoundOrFirst(m.currentRound) + 1
    ensures var k := FindModel(models, modelId).value;
            var n := RoundOrFirst(models[k].currentRound) + 1;
            var started := StartModelNewRound(models, modelId, testType, newId, now).value;
            var before := models[k].rounds.GetOr([]);
            started[k].rounds == Some(before + [FreshRound(newId, n, testType, now)]) &&
            started[k].currentRound == Some(n) && started[k].status == Some(InProgress) &&
            started[k].awaitingConfirmation == Some(false) &&
            FindModel(started, modelId) == Some(k) &&
            FindRound(started[k].rounds.GetOr([]), RoundOrFirst(started[k].currentRound)) == Some(|before|)
  {
    var k := FindModel(models, modelId).value;
    var n := RoundOrFirst(models[k].currentRound) + 1;
    var started := StartModelNewRound(models, modelId, testType, newId, now).value;
    var before := models[k].rounds.GetOr([]);
    var rounds := before + [FreshRound(newId, n, testType, now)];
    assert started[k].rounds == Some(rounds);
    forall j | 0 <= j < k
      ensures started[j].id != modelId
    {
      assert started[j] == models[j];
    }
    FindModelFirst(started, modelId, k);
    assert RoundOrFirst(started[k].currentRound) == n;
    FindRoundFirst(rounds, n, |before|);
  }

  /** A position holding the id with no earlier one is what `FindModel` answers. */
  lemma {:induction false} FindModelFirst(models: seq<ReleaseModel>, modelId: string, k: nat)
    requires k < |models| && models[k].id == modelId
    requires forall j :: 0 <= j < k ==> models[j].id != modelId
    ensures FindModel(models, modelId) == Some(k)
    decreases k
  {
    if k > 0 {
      FindModelFirst(models[1..], modelId, k - 1);
    }
  }

  /** The fields a `saveRelease` PATCH carries; absent ones are kept. */
  datatype ReleasePatch = ReleasePatch(
    id: string, models: Option<seq<ReleaseModel>>, targetDate: Option<string>,
    completed: Option<bool>, updatedAt: Option<string>)

  /** The stored release after the backend merges a patch into it. */
  function ApplyPatch(r: Release, p: ReleasePatch): (s: Release)
    ensures s.id == r.id && s.version == r.version && s.createdAt == r.createdAt
    ensures s.models == p.models.GetOr(r.models) && s.targetDate == p.targetDate.GetOr(r.targetDate)
    ensures s.completed == p.completed.GetOr(r.completed) && s.updatedAt == p.updatedAt.GetOr(r.updatedAt)
  {
    Release(r.id, r.version, p.targetDate.GetOr(r.targetDate), p.models.GetOr(r.models),
            r.createdAt, p.updatedAt.GetOr(r.updatedAt), p.completed.GetOr(r.completed))
  }

  /** The position of the first release with the id. */
  function FindRelease(releases: seq<Release>, id: string): (r: Option<nat>)
    ensures r.Some? ==> r.value < |releases| && releases[r.value].id == id
    ensures r.Some? ==> forall j :: 0 <= j < r.value ==> releases[j].id != id
    ensures r.None? <==> forall j :: 0 <= j < |releases| ==> releases[j].id != id
    decreases |releases|
  {
    if |releases| == 0 then None
    else if releases[0].id == id then Some(0)
    else match FindRelease(releases[1..], id)
      case None => None
      case Some(k) => Some(k + 1)
  }

  /** The stored table after a PATCH of the release; a missing release is not found and nothing changes. */
  function Patched(remote: seq<Release>, p: ReleasePatch): (r: seq<Release>)
    ensures |r| == |remote|
    ensures FindRelease(remote, p.id).None? ==> r == remote
    ensures FindRelease(remote, p.id).Some? ==>
              var i := FindRelease(remote, p.id).value;
              r[i] == ApplyPatch(remote[i], p) && forall j :: 0 <= j < |remote| && j != i ==> r[j] == remote[j]
  {
    match FindRelease(remote, p.id)
    case None => remote
    case Some(i) => remote[i := ApplyPatch(remote[i], p)]
  }

  /** A patch that only stamps the time and sets one field leaves every other release and field as it was. */
  lemma CompleteTouchesOnlyCompleted(remote: seq<Release>, id: string, now: string)
    requires FindRelease(remote, id).Some?
    ensures var r := Patched(remote, ReleasePatch(id, None, None, Some(true), Some(now)));
            var i := FindRelease(remote, id).value;
            r[i] == remote[i].(completed := true, updatedAt := now) &&
            FindRelease(r, id) == Some(i)
  {
    var r := Patched(remote, ReleasePatch(id, None, None, Some(true), Some(now)));
    var i := FindRelease(remote, id).value;
    forall j | 0 <= j < i
      ensures r[j].id != id
    {
      assert r[j] == remote[j];
    }
  }

  /** A release created by `addRelease`: every model included and unconfirmed, the release not completed. */
  function NewRelease(id: string, version: string, targetDate: string, picks: seq<(string, Segment)>,
                      modelIds: seq<string>, now: string): (r: Release)
    requires |modelIds| == |picks|
    ensures |r.models| == |picks| && !r.completed && r.id == id
    ensures forall i :: 0 <= i < |picks| ==>
              r.models[i] == NewModel(modelIds[i], picks[i].0, picks[i].1) && r.models[i].included && !r.models[i].confirmed
  {
    Release(id, version, targetDate,
            seq(|picks|, i requires 0 <= i < |picks| => NewModel(modelIds[i], picks[i].0, picks[i].1)),
            now, now, false)
  }

  /**
   * The local hook (`useReleasesLocal`, used when the backend is
   * configured): the page's releases and the backend's `releases` table.
   * `reachable` says whether the backend answers; a refetch replaces the
   * page state with the table.
   */
  class ReleasesLocal {
    var releases: seq<Release>
    var remote: seq<Release>

    constructor (remote: seq<Release>)
      ensures releases == [] && this.remote == remote
    {
      releases := [];
      this.remote := remote;
    }

    /** `fetchReleases`: on failure the page keeps what it had. */
    method Fetch(reachable: bool)
      modifies this
      ensures remote == old(remote)
      ensures releases == if reachable then remote else old(releases)
    {
      if reachable {
        releases := remote;
      }
    }

    /** `saveRelease`: PATCH the release; only a successful PATCH is followed by a refetch. */
    method Save(p: ReleasePatch, reachable: bool)
      modifies this
      ensures reachable && FindRelease(old(remote), p.id).Some? ==>
                remote == Patched(old(remote), p) && releases == remote
      ensures !(reachable && FindRelease(old(remote), p.id).Some?) ==>
                remote == old(remote) && releases == old(releases)
    {
      if reachable && FindRelease(remote, p.id).Some? {
        remote := Patched(remote, p);
        releases := remote;
      }
    }

    /** `addRelease`: POST the new release, refetch, and answer it (None when the POST fails). */
    method AddRelease(id: string, version: string, targetDate: string, picks: seq<(string, Segment)>,
                      modelIds: seq<string>, now: string, reachable: bool) returns (created: Option<Release>)
      requires |modelIds| == |picks|
      modifies this
      ensures reachable ==> created == Some(NewRelease(id, version, targetDate, picks, modelIds, now)) &&
                            remote == old(remote) + [created.value] && releases == remote
      ensures !reachable ==> created.None? && remote == old(remote) && releases == old(releases)
    {
      if !reachable {
        return None;
      }
      var r := NewRelease(id, version, targetDate, picks, modelIds, now);
      remote := remote + [r];
      releases := remote;
      created := Some(r);
    }

    /** `toggleModelInclusion`: a release missing from the page is a no-op. */
    method ToggleModelInclusion(releaseId: string, modelId: string, now: string, reachable: bool)
      modifies this
      ensures FindRelease(old(releases), releaseId).None? ==> remote == old(remote) && releases == old(releases)
      ensures !(reachable && FindRelease(old(remote), releaseId).Some?) ==> remote == old(remote) && releases == old(releases)
      ensures FindRelease(old(releases), releaseId).Some? && reachable && FindRelease(old(remote), releaseId).Some? ==>
                var page := old(releases)[FindRelease(old(releases), releaseId).value];
                remote == Patched(old(remote), ReleasePatch(releaseId, Some(ToggleModels(page.models, modelId)), None, None, Some(now))) &&
                releases == remote
    {
      var found := FindRelease(releases, releaseId);
      if found.None? {
        return;
      }
      var release := releases[found.value];
      Save(ReleasePatch(releaseId, Some(ToggleModels(release.models, modelId)), None, None, Some(now)), reachable);
    }

    /** `confirmModelInRelease`. */
    method ConfirmModelInRelease(releaseId: string, modelId: string, ids: ReleaseModelIds, now: string, reachable: bool)
      modifies this
      ensures FindRelease(old(releases), releaseId).None? ==> remote == old(remote) && releases == old(releases)
      ensures !(reachable && FindRelease(old(remote), releaseId).Some?) ==> remote == old(remote) && releases == old(releases)
      ensures FindRelease(old(releases), releaseId).Some? && reachable && FindRelease(old(remote), releaseId).Some? ==>
                var page := old(releases)[FindRelease(old(releases), releaseId).value];
                remote == Patched(old(remote), ReleasePatch(releaseId, Some(ConfirmModels(page.models, modelId, ids, now)), None, None, Some(now))) &&
                releases == remote
    {
      var found := FindRelease(releases, releaseId);
      if found.None? {
        return;
      }
      var release := releases[found.value];
      Save(ReleasePatch(releaseId, Some(ConfirmModels(release.models, modelId, ids, now)), None, None, Some(now)), reachable);
    }

    /** `addModelToRelease`: no-op when the release is missing or already has the pair. */
    method AddModelToRelease(releaseId: string, country: string, segment: Segment, newId: string, now: string, reachable: bool)
      modifies this
      ensures FindRelease(old(releases), releaseId).None? ==> remote == old(remote) && releases == old(releases)
      ensures !(reachable && FindRelease(old(remote), releaseId).Some?) ==> remote == old(remote) && releases == old(releases)
      ensures FindRelease(old(releases), releaseId).Some? ==>
                var page := old(releases)[FindRelease(old(releases), releaseId).value];
                (HasPair(page.models, country, segment) ==> remote == old(remote) && releases == old(releases)) &&
                (!HasPair(page.models, country, segment) && reachable && FindRelease(old(remote), releaseId).Some? ==>
                   remote == Patched(old(remote), ReleasePatch(releaseId, AddModel(page.models, country, segment, newId), None, None, Some(now))) &&
                   releases == remote)
    {
      var found := FindRelease(releases, releaseId);
      if found.None? {
        return;
      }
      var release := releases[found.value];
      var models := AddModel(release.models, country, segment, newId);
      if models.None? {
        return;
      }
      Save(ReleasePatch(releaseId, models, None, None, Some(now)), reachable);
    }

    /** `removeModelFromRelease`. */
    method RemoveModelFromRelease(releaseId: string, modelId: string, now: string, reachable: bool)
      modifies this
      ensures FindRelease(old(releases), releaseId).None? ==> remote == old(remote) && releases == old(releases)
      ensures !(reachable && FindRelease(old(remote), releaseId).Some?) ==> remote == old(remote) && releases == old(releases)
      ensures FindRelease(old(releases), releaseId).Some? && reachable && FindRelease(old(remote), releaseId).Some? ==>
                var page := old(releases)[FindRelease(old(releases), releaseId).value];
                remote == Patched(old(remote), ReleasePatch(releaseId, Some(RemoveModels(page.models, modelId)), None, None, Some(now))) &&
                releases == remote
    {
      var found := FindRelease(releases, releaseId);
      if found.None? {
        return;
      }
      var release := releases[found.value];
      Save(ReleasePatch(releaseId, Some(RemoveModels(release.models, modelId)), None, None, Some(now)), reachable);
    }

    /** `deleteRelease`: DELETE the first release with the id, then refetch; a missing id is a 404 and nothing changes. */
    method DeleteRelease(releaseId: string, reachable: bool)
      modifies this
      ensures reachable && FindRelease(old(remote), releaseId).Some? ==>
                var i := FindRelease(old(remote), releaseId).value;
                remote == old(remote)[..i] + old(remote)[i + 1..] && releases == remote
      ensures !(reachable && FindRelease(old(remote), releaseId).Some?) ==> remote == old(remote) && releases == old(releases)
    {
      if !reachable {
        return;
      }
      var found := FindRelease(remote, releaseId);
      if found.None? {
        return;
      }
      remote := remote[..found.value] + remote[found.value + 1..];
      releases := remote;
    }

    /** `completeRelease`: no check against the page state. */
    method CompleteRelease(releaseId: string, now: string, reachable: bool)
      modifies this
      ensures reachable && FindRelease(old(remote), releaseId).Some? ==>
                remote == Patched(old(remote), ReleasePatch(releaseId, None, None, Some(true), Some(now))) && releases == remote
      ensures !(reachable && FindRelease(old(remote), releaseId).Some?) ==> remote == old(remote) && releases == old(releases)
    {
      Save(ReleasePatch(releaseId, None, None, Some(true), Some(now)), reachable);
    }

    /** `updateReleaseDate`: only the target date (and the time stamp) change. */
    method UpdateReleaseDate(releaseId: string, newDate: string, now: string, reachable: bool)
      modifies this
      ensures reachable && FindRelease(old(remote), releaseId).Some? ==>
                remote == Patched(old(remote), ReleasePatch(releaseId, None, Some(newDate), None, Some(now))) && releases == remote
      ensures !(reachable && FindRelease(old(remote), releaseId).Some?) ==> remote == old(remote) && releases == old(releases)
    {
      Save(ReleasePatch(releaseId, None, Some(newDate), None, Some(now)), reachable);
    }

    /** `updateModelStep`: no-op when the release, the model or its current round is missing. */
    method UpdateModelStepOf(releaseId: string, modelId: string, step: WorkflowStep, now: string, reachable: bool)
      modifies this
      ensures FindRelease(old(releases), releaseId).None? ==> remote == old(remote) && releases == old(releases)
      ensures !(reachable && FindRelease(old(remote), releaseId).Some?) ==> remote == old(remote) && releases == old(releases)
      ensures FindRelease(old(releases), releaseId).Some? ==>
                var page := old(releases)[FindRelease(old(releases), releaseId).value];
                var models := UpdateModelStep(page.models, modelId, step, now);
                (models.None? ==> remote == old(remote) && releases == old(releases)) &&
                (models.Some? && reachable && FindRelease(old(remote), releaseId).Some? ==>
                   remote == Patched(old(remote), ReleasePatch(releaseId, models, None, None, Some(now))) && releases == remote)
    {
      var found := FindRelease(releases, releaseId);
      if found.None? {
        return;
      }
      var release := releases[found.value];
      var models := UpdateModelStep(release.models, modelId, step, now);
      if models.None? {
        return;
      }
      Save(ReleasePatch(releaseId, models, None, None, Some(now)), reachable);
    }

    /** `startModelNewRound`: no-op when the release or the model is missing. */
    method StartModelNewRoundOf(releaseId: string, modelId: string, testType: TestType, newId: string, now: string, reachable: bool)
      modifies this
      ensures FindRelease(old(releases), releaseId).None? ==> remote == old(remote) && releases == old(releases)
      ensures !(reachable && FindRelease(old(remote), releaseId).Some?) ==> remote == old(remote) && releases == old(releases)
      ensures FindRelease(old(releases), releaseId).Some? ==>
                var page := old(releases)[FindRelease(old(releases), releaseId).value];
                var models := StartModelNewRound(page.models, modelId, testType, newId, now);
                (models.None? ==> remote == old(remote) && releases == old(releases)) &&
                (models.Some? && reachable && FindRelease(old(remote), releaseId).Some? ==>
                   remote == Patched(old(remote), ReleasePatch(releaseId, models, None, None, Some(now))) && releases == remote)
    {
      var found := FindRelease(releases, releaseId);
      if found.None? {
        return;
      }
      var release := releases[found.value];
      var models := StartModelNewRound(release.models, modelId, testType, newId, now);
      if models.None? {
        return;
      }
      Save(ReleasePatch(releaseId, models, None, None, Some(now)), reachable);
    }

    /** `updateModelStatus`. */
    method UpdateModelStatus(releaseId: string, modelId: string, status: ProjectStatus, now: string, reachable: bool)
      modifies this
      ensures FindRelease(old(releases), releaseId).None? ==> remote == old(remote) && releases == old(releases)
      ensures !(reachable && FindRelease(old(remote), releaseId).Some?) ==> remote == old(remote) && releases == old(releases)
      ensures FindRelease(old(releases), releaseId).Some? && reachable && FindRelease(old(remote), releaseId).Some? ==>
                var page := old(releases)[FindRelease(old(releases), releaseId).value];
                remote == Patched(old(remote), ReleasePatch(releaseId, Some(SetModelStatus(page.models, modelId, status)), None, None, Some(now))) &&
                releases == remote
    {
      var found := FindRelease(releases, releaseId);
      if found.None? {
        return;
      }
      var release := releases[found.value];
      Save(ReleasePatch(releaseId, Some(SetModelStatus(release.models, modelId, status)), None, None, Some(now)), reachable);
    }
  }

  // ---------------------------------------------------------------------------
  // The database hook (`useReleases`)

  datatype ReleaseRow = ReleaseRow(
    id: string, version: string, targetDate: string, isCompleted: bool, createdAt: string, updatedAt: string)

  /** A `release_models` row; the four id columns are nullable. */
  datatype ReleaseModelRow = ReleaseModelRow(
    id: string, releaseId: string, country: string, segment: Segment, isIncluded: bool, isConfirmed: bool,
    modelOutId: Option<string>, modelInId: Option<string>, rulesOutId: Option<string>, rulesInId: Option<string>,
    createdAt: string, updatedAt: string)

  /** `x || undefined` for a nullable text column: null and the empty string become absent. */
  function NonEmpty(x: Option<string>): (r: Option<string>)
    ensures r.Some? <==> x.Some? && x.value != ""
    ensures r.Some? ==> r == x
  {
    if x.Some? && x.value != "" then x else None
  }

  /** `modelRowToReleaseModel`. */
  function ModelRowToReleaseModel(row: ReleaseModelRow): (m: ReleaseModel)
    ensures m.id == row.id && m.country == row.country && m.segment == row.segment
    ensures m.included == row.isIncluded && m.confirmed == row.isConfirmed
    ensures m.modelIds.None? <==>
              NonEmpty(row.modelOutId).None? && NonEmpty(row.modelInId).None? &&
              NonEmpty(row.rulesOutId).None? && NonEmpty(row.rulesInId).None?
    ensures m.modelIds.Some? ==>
              m.modelIds.value == ReleaseModelIds(NonEmpty(row.modelOutId), NonEmpty(row.modelInId),
                                                  NonEmpty(row.rulesOutId), NonEmpty(row.rulesInId))
    ensures m.confirmedAt.Some? <==> row.isConfirmed
    ensures m.confirmedAt.Some? ==> m.confirmedAt.value == row.updatedAt
  {
    var anyId := NonEmpty(row.modelOutId).Some? || NonEmpty(row.modelInId).Some? ||
                 NonEmpty(row.rulesOutId).Some? || NonEmpty(row.rulesInId).Some?;
    ReleaseModel(
      row.id, row.country, row.segment, row.isIncluded, row.isConfirmed,
      if anyId then Some(ReleaseModelIds(NonEmpty(row.modelOutId), NonEmpty(row.modelInId),
                                         NonEmpty(row.rulesOutId), NonEmpty(row.rulesInId)))
      else None,
      if row.isConfirmed then Some(row.updatedAt) else None,
      None, None, None, None)
  }

  function ToModels(rows: seq<ReleaseModelRow>): (r: seq<ReleaseModel>)
    ensures |r| == |rows| && forall i :: 0 <= i < |rows| ==> r[i] == ModelRowToReleaseModel(rows[i])
  {
    seq(|rows|, i requires 0 <= i < |rows| => ModelRowToReleaseModel(rows[i]))
  }

  function RowsOf(modelRows: seq<ReleaseModelRow>, releaseId: string): seq<ReleaseModelRow> {
    Filter(modelRows, (m: ReleaseModelRow) => m.releaseId == releaseId)
  }

  /** The combined releases of `fetchReleases`: each release row with the models whose `release_id` is its id, in row order. */
  function Join(releaseRows: seq<ReleaseRow>, modelRows: seq<ReleaseModelRow>): (r: seq<Release>)
    ensures |r| == |releaseRows|
    ensures forall i :: 0 <= i < |releaseRows| ==>
              r[i].id == releaseRows[i].id && r[i].version == releaseRows[i].version &&
              r[i].targetDate == releaseRows[i].targetDate && r[i].completed == releaseRows[i].isCompleted &&
              r[i].createdAt == releaseRows[i].createdAt && r[i].updatedAt == releaseRows[i].updatedAt
  {
    seq(|releaseRows|, i requires 0 <= i < |releaseRows| =>
      var row := releaseRows[i];
      Release(row.id, row.version, row.targetDate, ToModels(RowsOf(modelRows, row.id)),
              row.createdAt, row.updatedAt, row.isCompleted))
  }

  /**
   * Each joined release holds exactly the converted model rows whose
   * `release_id` is its id: the models of a row not for it are absent, and
   * the rows for it appear in their table order.
   */
  lemma JoinGroupsModels(releaseRows: seq<ReleaseRow>, modelRows: seq<ReleaseModelRow>, i: nat)
    requires i < |releaseRows|
    ensures var models := Join(releaseRows, modelRows)[i].models;
            (forall row :: row in modelRows && row.releaseId == releaseRows[i].id ==> ModelRowToReleaseModel(row) in models) &&
            (forall m :: m in models ==> exists row :: row in modelRows && row.releaseId == releaseRows[i].id && m == ModelRowToReleaseModel(row)) &&
            (forall a, b :: RowsOf(modelRows, releaseRows[i].id) == a + b ==> models == ToModels(a) + ToModels(b))
  {
    var id := releaseRows[i].id;
    var rows := RowsOf(modelRows, id);
    var models := Join(releaseRows, modelRows)[i].models;
    assert models == ToModels(rows);
    forall row | row in modelRows && row.releaseId == id
      ensures ModelRowToReleaseModel(row) in models
    {
      assert row in rows;
      ToModelsHas(rows, row);
    }
    forall m | m in models
      ensures exists row :: row in modelRows && row.releaseId == id && m == ModelRowToReleaseModel(row)
    {
      var row := ToModelsFrom(rows, m);
      assert row in modelRows && row.releaseId == id;
    }
    forall a, b | rows == a + b
      ensures models == ToModels(a) + ToModels(b)
    {
      ToModelsConcat(a, b);
    }
  }

  lemma ToModelsHas(rows: seq<ReleaseModelRow>, row: ReleaseModelRow)
    requires row in rows
    ensures ModelRowToReleaseModel(row) in ToModels(rows)
  {
    var k :| 0 <= k < |rows| && rows[k] == row;
    assert ToModels(rows)[k] == ModelRowToReleaseModel(row);
  }

  ghost function ToModelsFrom(rows: seq<ReleaseModelRow>, m: ReleaseModel): (row: ReleaseModelRow)
    requires m in ToModels(rows)
    ensures row in rows && m == ModelRowToReleaseModel(row)
  {
    var k :| 0 <= k < |ToModels(rows)| && ToModels(rows)[k] == m;
    rows[k]
  }

  lemma ToModelsConcat(a: seq<ReleaseModelRow>, b: seq<ReleaseModelRow>)
    ensures ToModels(a + b) == ToModels(a) + ToModels(b)
  {
    assert forall k :: 0 <= k < |a| ==> (a + b)[k] == a[k];
    assert forall k :: |a| <= k < |a| + |b| ==> (a + b)[k] == b[k - |a|];
  }

  /** Release rows by ascending target date, as the query requests them. */
  function ByTargetDate(): (ReleaseRow, ReleaseRow) -> bool {
    (a: ReleaseRow, b: ReleaseRow) => LexLe(a.targetDate, b.targetDate)
  }

  lemma ByTargetDateOrdersReleases(releaseRows: seq<ReleaseRow>, modelRows: seq<ReleaseModelRow>)
    ensures var r := Join(SortBy(releaseRows, ByTargetDate()), modelRows);
            multiset(SortBy(releaseRows, ByTargetDate())) == multiset(releaseRows) &&
            forall i, j :: 0 <= i < j < |r| ==> LexLe(r[i].targetDate, r[j].targetDate)
  {
    var le := ByTargetDate();
    assert TotalPreorder(le) by {
      forall a: ReleaseRow, b: ReleaseRow
        ensures le(a, b) || le(b, a)
      {
        LexLeTotal(a.targetDate, b.targetDate);
      }
      forall a: ReleaseRow, b: ReleaseRow, c: ReleaseRow | le(a, b) && le(b, c)
        ensures le(a, c)
      {
        LexLeTrans(a.targetDate, b.targetDate, c.targetDate);
      }
    }
    SortByCorrect(releaseRows, le);
    var sorted := SortBy(releaseRows, le);
    var r := Join(sorted, modelRows);
    forall i, j | 0 <= i < j < |r|
      ensures LexLe(r[i].targetDate, r[j].targetDate)
    {
      assert le(sorted[i], sorted[j]);
    }
  }

  /** The row written by `confirmModelInRelease`: confirmed, each absent or empty id stored as null. */
  function ConfirmRow(row: ReleaseModelRow, ids: ReleaseModelIds, now: string): ReleaseModelRow {
    row.(isConfirmed := true,
         modelOutId := NonEmpty(ids.modelOut), modelInId := NonEmpty(ids.modelIn),
         rulesOutId := NonEmpty(ids.rulesOut), rulesInId := NonEmpty(ids.rulesIn),
         updatedAt := now)
  }

  /** Reading a confirmed row back recovers the non-empty ids, confirmed at the write time. */
  lemma ConfirmRoundTrip(row: ReleaseModelRow, ids: ReleaseModelIds, now: string)
    ensures var m := ModelRowToReleaseModel(ConfirmRow(row, ids, now));
            var kept := ReleaseModelIds(NonEmpty(ids.modelOut), NonEmpty(ids.modelIn), NonEmpty(ids.rulesOut), NonEmpty(ids.rulesIn));
            m.confirmed && m.confirmedAt == Some(now) &&
            (kept == ReleaseModelIds(None, None, None, None) ==> m.modelIds.None?) &&
            (kept != ReleaseModelIds(None, None, None, None) ==> m.modelIds == Some(kept)) &&
            (ids.modelOut.Some? && ids.modelOut.value != "" ==> m.modelIds.Some? && m.modelIds.value.modelOut == ids.modelOut)
  {
  }

  /** A freshly inserted model row: included and not confirmed, no ids. */
  function NewModelRow(id: string, releaseId: string, country: string, segment: Segment, now: string): (row: ReleaseModelRow)
    ensures row.isIncluded && !row.isConfirmed && row.releaseId == releaseId
    ensures ModelRowToReleaseModel(row).modelIds.None? && ModelRowToReleaseModel(row).confirmedAt.None?
  {
    ReleaseModelRow(id, releaseId, country, segment, true, false, None, None, None, None, now, now)
  }

  function NewModelRows(releaseId: string, picks: seq<(string, Segment)>, ids: seq<string>, now: string): (r: seq<ReleaseModelRow>)
    requires |ids| == |picks|
    ensures |r| == |picks|
    ensures forall i :: 0 <= i < |picks| ==> r[i] == NewModelRow(ids[i], releaseId, picks[i].0, picks[i].1, now)
  {
    seq(|picks|, i requires 0 <= i < |picks| => NewModelRow(ids[i], releaseId, picks[i].0, picks[i].1, now))
  }

  /**
   * The database hook: the page's releases and the two tables. Each write
   * may fail (`ok` false), which is only logged; writes do not refresh the
   * page, which follows the tables through `Fetch`.
   */
  class ReleasesHook {
    var releases: seq<Release>
    var releaseRows: seq<ReleaseRow>
    var modelRows: seq<ReleaseModelRow>

    constructor (releaseRows: seq<ReleaseRow>, modelRows: seq<ReleaseModelRow>)
      ensures releases == [] && this.releaseRows == releaseRows && this.modelRows == modelRows
    {
      releases := [];
      this.releaseRows := releaseRows;
      this.modelRows := modelRows;
    }

    /** `fetchReleases`: releases by ascending target date, each joined with its models; a failed query keeps the page. */
    method Fetch(ok: bool)
      modifies this
      ensures releaseRows == old(releaseRows) && modelRows == old(modelRows)
      ensures ok ==> releases == Join(SortBy(releaseRows, ByTargetDate()), modelRows)
      ensures !ok ==> releases == old(releases)
    {
      if ok {
        releases := Join(SortBy(releaseRows, ByTargetDate()), modelRows);
      }
    }

    /**
     * `addRelease`: inserts the release row, then (when there are models)
     * one included, unconfirmed row per model; answers the release with no
     * models, or None when the release insert fails. A failed model insert
     * is only logged.
     */
    method AddRelease(id: string, version: string, targetDate: string, now: string, picks: seq<(string, Segment)>,
                      modelIds: seq<string>, ok: bool, modelsOk: bool) returns (created: Option<Release>)
      requires |modelIds| == |picks|
      modifies this
      ensures releases == old(releases)
      ensures !ok ==> created.None? && releaseRows == old(releaseRows) && modelRows == old(modelRows)
      ensures ok ==> releaseRows == old(releaseRows) + [ReleaseRow(id, version, targetDate, false, now, now)]
      ensures ok ==> created == Some(Release(id, version, targetDate, [], now, now, false))
      ensures ok && modelsOk ==> modelRows == old(modelRows) + NewModelRows(id, picks, modelIds, now)
      ensures ok && !modelsOk ==> modelRows == old(modelRows)
    {
      if !ok {
        return None;
      }
      var row := ReleaseRow(id, version, targetDate, false, now, now);
      releaseRows := releaseRows + [row];
      if |picks| > 0 && modelsOk {
        modelRows := modelRows + NewModelRows(id, picks, modelIds, now);
      } else if |picks| == 0 {
        assert NewModelRows(id, picks, modelIds, now) == [];
        assert modelRows + [] == modelRows;
      }
      created := Some(Release(row.id, row.version, row.targetDate, [], row.createdAt, row.updatedAt, row.isCompleted));
    }

    /** `toggleModelInclusion`: writes the negation of the page's `included`; a model missing from the page is a no-op. */
    method ToggleModelInclusion(releaseId: string, modelId: string, now: string, ok: bool)
      modifies this
      ensures releases == old(releases) && releaseRows == old(releaseRows)
      ensures var r := FindRelease(releases, releaseId);
              var m := if r.Some? then FindModel(releases[r.value].models, modelId) else None;
              (m.None? || !ok ==> modelRows == old(modelRows)) &&
              (m.Some? && ok ==>
                 var included := releases[r.value].models[m.value].included;
                 modelRows == UpdateWhere(old(modelRows), (row: ReleaseModelRow) => row.id == modelId,
                                         (row: ReleaseModelRow) => row.(isIncluded := !included, updatedAt := now)))
    {
      var r := FindRelease(releases, releaseId);
      if r.None? {
        return;
      }
      var m := FindModel(releases[r.value].models, modelId);
      if m.None? || !ok {
        return;
      }
      var included := releases[r.value].models[m.value].included;
      modelRows := UpdateWhere(modelRows, (row: ReleaseModelRow) => row.id == modelId, (row: ReleaseModelRow) => row.(isIncluded := !included, updatedAt := now));
    }

    /** `confirmModelInRelease`: writes the confirmation to the model's rows. */
    method ConfirmModelInRelease(modelId: string, ids: ReleaseModelIds, now: string, ok: bool)
      modifies this
      ensures releases == old(releases) && releaseRows == old(releaseRows)
      ensures ok ==> modelRows == UpdateWhere(old(modelRows), (row: ReleaseModelRow) => row.id == modelId, (row: ReleaseModelRow) => ConfirmRow(row, ids, now))
      ensures !ok ==> modelRows == old(modelRows)
    {
      if ok {
        modelRows := UpdateWhere(modelRows, (row: ReleaseModelRow) => row.id == modelId, (row: ReleaseModelRow) => ConfirmRow(row, ids, now));
      }
    }

    /** `addModelToRelease`: inserts the row; unlike the local hook it does not check for the pair. */
    method AddModelToRelease(releaseId: string, country: string, segment: Segment, newId: string, now: string, ok: bool)
      modifies this
      ensures releases == old(releases) && releaseRows == old(releaseRows)
      ensures ok ==> modelRows == old(modelRows) + [NewModelRow(newId, releaseId, country, segment, now)]
      ensures !ok ==> modelRows == old(modelRows)
    {
      if ok {
        modelRows := modelRows + [NewModelRow(newId, releaseId, country, segment, now)];
      }
    }

    /** `removeModelFromRelease`: deletes the rows with the id. */
    method RemoveModelFromRelease(modelId: string, ok: bool)
      modifies this
      ensures releases == old(releases) && releaseRows == old(releaseRows)
      ensures ok ==> modelRows == Filter(old(modelRows), (row: ReleaseModelRow) => row.id != modelId)
      ensures !ok ==> modelRows == old(modelRows)
    {
      if ok {
        modelRows := Filter(modelRows, (row: ReleaseModelRow) => row.id != modelId);
      }
    }

    /** `deleteRelease`: deletes the release rows with the id. */
    method DeleteRelease(releaseId: string, ok: bool)
      modifies this
      ensures releases == old(releases) && modelRows == old(modelRows)
      ensures ok ==> releaseRows == Filter(old(releaseRows), (row: ReleaseRow) => row.id != releaseId)
      ensures !ok ==> releaseRows == old(releaseRows)
    {
      if ok {
        releaseRows := Filter(releaseRows, (row: ReleaseRow) => row.id != releaseId);
      }
    }

    /** `completeRelease`: marks the release rows with the id completed. */
    method CompleteRelease(releaseId: string, now: string, ok: bool)
      modifies this
      ensures releases == old(releases) && modelRows == old(modelRows)
      ensures ok ==> |releaseRows| == |old(releaseRows)| &&
                     forall i :: 0 <= i < |releaseRows| ==>
                       releaseRows[i] == if old(releaseRows)[i].id == releaseId
                                         then old(releaseRows)[i].(isCompleted := true, updatedAt := now)
                                         else old(releaseRows)[i]
      ensures !ok ==> releaseRows == old(releaseRows)
    {
      if ok {
        releaseRows := seq(|releaseRows|, i requires 0 <= i < |releaseRows| reads this =>
          if releaseRows[i].id == releaseId then releaseRows[i].(isCompleted := true, updatedAt := now) else releaseRows[i]);
      }
    }
  }
}
