/**
 * `stock_analyzer.assistants`: the three status classes of an assistant run, the
 * poller that drives a run until it settles, and the provisioner that finds or
 * creates the assistant by name.
 *
 * The remote run is replaced by the sequence of statuses that successive
 * retrievals observe; the remote assistant collection by an `AssistantsApi`
 * object whose list, delete and create calls are recorded.
 */
module Assistants {
  import opened Wrappers
  import Json

  // ---------------------------------------------------------------------------
  // Status classes
  // ---------------------------------------------------------------------------

  const OngoingStatuses: seq<string> := ["queued", "in_progress", "cancelling"]
  const ReturnStatuses: seq<string> := ["requires_action", "completed"]
  const FailureStatuses: seq<string> := ["cancelled", "failed", "incomplete", "expired"]

  /** The nine statuses the three lists name, in declaration order. */
  function KnownStatuses(): (all: seq<string>)
    ensures |all| == 9
    ensures forall s :: s in all <==> s in OngoingStatuses || s in ReturnStatuses || s in FailureStatuses
  {
    OngoingStatuses + ReturnStatuses + FailureStatuses
  }

  /** No status is named twice, so the three lists are pairwise disjoint. */
  lemma StatusListsDisjoint()
    ensures forall i, j :: 0 <= i < j < |KnownStatuses()| ==> KnownStatuses()[i] != KnownStatuses()[j]
    ensures forall s :: !(s in OngoingStatuses && s in ReturnStatuses)
    ensures forall s :: !(s in OngoingStatuses && s in FailureStatuses)
    ensures forall s :: !(s in ReturnStatuses && s in FailureStatuses)
  {
  }

  /** The arm of the `match` in `iterate_run` that a status selects. A status in
      none of the lists selects no arm. */
  datatype StatusClass = Ongoing | Returnable | Failed | Unmatched

  function Classify(status: string): (c: StatusClass)
    ensures c == Ongoing <==> status in OngoingStatuses
    ensures c == Returnable <==> status in ReturnStatuses
    ensures c == Failed <==> status in FailureStatuses
    ensures c == Unmatched <==> status !in KnownStatuses()
  {
    if status in OngoingStatuses then Ongoing
    else if status in ReturnStatuses then Returnable
    else if status in FailureStatuses then Failed
    else Unmatched
  }

  // ---------------------------------------------------------------------------
  // Poller (`iterate_run`)
  // ---------------------------------------------------------------------------

  /** A run as retrieved from the service. */
  datatype Run = Run(id: string, threadId: string, status: string)

  /** What the poller does to the outside world: sleep, or retrieve the run. */
  datatype Event = Sleep(seconds: nat) | Retrieve(threadId: string, runId: string)

  /** How `iterate_run` ends: it returns a run, raises a `RuntimeError` with a
      message, or falls through the `match` and returns `None`. `StillPolling`
      means the observed statuses ran out while the run was still ongoing:
      the function has not returned yet. */
  datatype PollOutcome = Returned(run: Run) | Raised(message: string) | NoValue | StillPolling

  datatype Poll = Poll(outcome: PollOutcome, trace: seq<Event>)

  const UnexpectedStatus: string := "Thread finished with an unexpected status: "

  /** One round of polling: a one-second sleep, then one retrieval. */
  function Round(runId: string, threadId: string): seq<Event> {
    [Sleep(1), Retrieve(threadId, runId)]
  }

  /** `n` rounds of polling. */
  function Rounds(n: nat, runId: string, threadId: string): (t: seq<Event>)
    ensures |t| == 2 * n
    ensures forall i :: 0 <= i < n ==> t[2 * i] == Sleep(1) && t[2 * i + 1] == Retrieve(threadId, runId)
  {
    if n == 0 then [] else Rounds(n - 1, runId, threadId) + Round(runId, threadId)
  }

  /** The outcome once a retrieval observes a status that is not ongoing. */
  function Settle(runId: string, threadId: string, status: string): (o: PollOutcome)
    requires Classify(status) != Ongoing
    ensures o.Returned? <==> status in ReturnStatuses
    ensures o.Raised? <==> status in FailureStatuses
    ensures o.NoValue? <==> status !in KnownStatuses()
    ensures o.Returned? ==> o.run == Run(runId, threadId, status)
    ensures o.Raised? ==> o.message == UnexpectedStatus + status
  {
    match Classify(status)
    case Returnable => Returned(Run(runId, threadId, status))
    case Failed => Raised(UnexpectedStatus + status)
    case Unmatched => NoValue
  }

  /** `iterate_run` as written, tail recursion included: sleep, retrieve, and
      recurse while the observed status is ongoing. While every status is ongoing,
      each one costs a round; a returned run is the polled one, in a returnable
      status. */
  function IterateRun(runId: string, threadId: string, observed: seq<string>): (p: Poll)
    ensures p.outcome.StillPolling? ==> |p.trace| == 2 * |observed|
    ensures p.outcome.Returned? ==>
      && p.outcome.run.id == runId && p.outcome.run.threadId == threadId
      && p.outcome.run.status in ReturnStatuses
    decreases |observed|
  {
    if observed == [] then Poll(StillPolling, [])
    else if Classify(observed[0]) == Ongoing then
      var rest := IterateRun(runId, threadId, observed[1..]);
      Poll(rest.outcome, Round(runId, threadId) + rest.trace)
    else
      Poll(Settle(runId, threadId, observed[0]), Round(runId, threadId))
  }

  /** The index of the first observed status that is not ongoing. */
  function FirstSettled(observed: seq<string>): (k: Option<nat>)
    ensures k.Some? ==> k.value < |observed| && Classify(observed[k.value]) != Ongoing
    ensures k.Some? ==> forall j :: 0 <= j < k.value ==> Classify(observed[j]) == Ongoing
    ensures k.None? ==> forall j :: 0 <= j < |observed| ==> Classify(observed[j]) == Ongoing
  {
    if observed == [] then None
    else if Classify(observed[0]) != Ongoing then Some(0)
    else match FirstSettled(observed[1..])
      case None => None
      case Some(k) => Some(k + 1)
  }

  /** The first status that is not ongoing decides the outcome, after exactly one
      round (one sleep, one retrieval with the same ids) per observed status up to
      and including it. With none, polling has not ended after all the rounds. */
  lemma {:induction false} IterateRunDecidedByFirstSettled(runId: string, threadId: string, observed: seq<string>)
    ensures var p := IterateRun(runId, threadId, observed);
      match FirstSettled(observed)
      case None => p == Poll(StillPolling, Rounds(|observed|, runId, threadId))
      case Some(k) => p == Poll(Settle(runId, threadId, observed[k]), Rounds(k + 1, runId, threadId))
    decreases |observed|
  {
    if observed != [] && Classify(observed[0]) == Ongoing {
      IterateRunDecidedByFirstSettled(runId, threadId, observed[1..]);
      match FirstSettled(observed[1..])
      case None =>
        RoundsPrepend(|observed| - 1, runId, threadId);
      case Some(k) =>
        RoundsPrepend(k + 1, runId, threadId);
    }
  }

  lemma {:induction false} RoundsPrepend(n: nat, runId: string, threadId: string)
    ensures Round(runId, threadId) + Rounds(n, runId, threadId) == Rounds(n + 1, runId, threadId)
  {
    if n > 0 {
      RoundsPrepend(n - 1, runId, threadId);
    }
  }

  /** A returned run has a returnable status, never a failure status, and carries the
      ids it was retrieved with. */
  lemma {:induction false} ReturnedRunIsReturnable(runId: string, threadId: string, observed: seq<string>)
    requires IterateRun(runId, threadId, observed).outcome.Returned?
    ensures var run := IterateRun(runId, threadId, observed).outcome.run;
      && run.status in ReturnStatuses
      && run.status !in FailureStatuses
      && run.id == runId && run.threadId == threadId
      && FirstSettled(observed).Some? && observed[FirstSettled(observed).value] == run.status
  {
    IterateRunDecidedByFirstSettled(runId, threadId, observed);
  }

  /** `iterate_run` raises exactly when the first settled status is a failure status,
      and the message names that status. */
  lemma {:induction false} RaisesIffFailureStatus(runId: string, threadId: string, observed: seq<string>)
    ensures IterateRun(runId, threadId, observed).outcome.Raised? <==>
              FirstSettled(observed).Some? && observed[FirstSettled(observed).value] in FailureStatuses
    ensures IterateRun(runId, threadId, observed).outcome.Raised? ==>
              IterateRun(runId, threadId, observed).outcome.message
                == UnexpectedStatus + observed[FirstSettled(observed).value]
  {
    IterateRunDecidedByFirstSettled(runId, threadId, observed);
  }

  /** A status outside all three lists ends polling with `None`, not an error. */
  lemma {:induction false} UnmatchedStatusGivesNone(runId: string, threadId: string, observed: seq<string>)
    ensures IterateRun(runId, threadId, observed).outcome.NoValue? <==>
              FirstSettled(observed).Some? && observed[FirstSettled(observed).value] !in KnownStatuses()
  {
    IterateRunDecidedByFirstSettled(runId, threadId, observed);
  }

  /** Every retrieval is preceded by exactly one one-second sleep: the trace alternates
      sleep and retrieval, with as many of each as statuses were observed. */
  lemma {:induction false} SleepBeforeEveryRetrieval(runId: string, threadId: string, observed: seq<string>)
    ensures var t := IterateRun(runId, threadId, observed).trace;
      |t| % 2 == 0 && |t| <= 2 * |observed| && (observed != [] ==> |t| >= 2)
    ensures var t := IterateRun(runId, threadId, observed).trace;
      forall i :: 0 <= i < |t| / 2 ==> t[2 * i] == Sleep(1) && t[2 * i + 1] == Retrieve(threadId, runId)
  {
    IterateRunDecidedByFirstSettled(runId, threadId, observed);
    var n := if FirstSettled(observed).None? then |observed| else FirstSettled(observed).value + 1;
    var t := IterateRun(runId, threadId, observed).trace;
    assert t == Rounds(n, runId, threadId);
    assert |t| / 2 == n;
  }

  /** The poll loop: sleep, retrieve the next observed status, and keep going while
      it is ongoing. */
  method PollRun(runId: string, threadId: string, observed: seq<string>) returns (outcome: PollOutcome, trace: seq<Event>)
    ensures Poll(outcome, trace) == IterateRun(runId, threadId, observed)
  {
    var i := 0;
    trace := [];
    while i < |observed|
      invariant 0 <= i <= |observed|
      invariant var rest := IterateRun(runId, threadId, observed[i..]);
        IterateRun(runId, threadId, observed) == Poll(rest.outcome, trace + rest.trace)
    {
      assert observed[i..][1..] == observed[i + 1..];
      trace := trace + [Sleep(1)];
      var run := Run(runId, threadId, observed[i]);
      trace := trace + [Retrieve(threadId, runId)];
      if Classify(run.status) == Ongoing {
        i := i + 1;
      } else {
        outcome := Settle(runId, threadId, run.status);
        return;
      }
    }
    outcome := StillPolling;
  }

  // ---------------------------------------------------------------------------
  // Provisioner (`get_or_create_assistant`)
  // ---------------------------------------------------------------------------

  const DefaultModel: string := "gpt-4.1-nano"

  /** A remote assistant. Names and instructions are optional on the service side. */
  datatype Assistant = Assistant(
    id: nat,
    name: Option<string>,
    instructions: Option<string>,
    model: string,
    tools: Json.Value)

  /** A call made on the assistant collection. */
  datatype ApiCall =
    | ListAssistants
    | DeleteAssistant(assistantId: nat)
    | CreateAssistant(name: Option<string>, instructions: Option<string>, model: string, tools: Json.Value)

  predicate DistinctIds(xs: seq<Assistant>) {
    forall i, j :: 0 <= i < j < |xs| ==> xs[i].id != xs[j].id
  }

  /** The collection after deleting the assistant with id `id`. */
  function Without(xs: seq<Assistant>, id: nat): (r: seq<Assistant>)
    ensures |r| <= |xs|
    ensures forall i :: 0 <= i < |r| ==> r[i].id != id
  {
    if xs == [] then []
    else if xs[0].id == id then Without(xs[1..], id)
    else [xs[0]] + Without(xs[1..], id)
  }

  /** What deleting keeps: exactly the assistants with another id. */
  lemma {:induction false} WithoutMembers(xs: seq<Assistant>, id: nat)
    ensures forall a :: a in Without(xs, id) <==> a in xs && a.id != id
  {
    if xs != [] {
      WithoutMembers(xs[1..], id);
      assert xs == [xs[0]] + xs[1..];
    }
  }

  lemma {:induction false} WithoutDistinct(xs: seq<Assistant>, id: nat)
    requires DistinctIds(xs)
    ensures DistinctIds(Without(xs, id))
  {
    if xs != [] {
      var tail := xs[1..];
      assert DistinctIds(tail) by {
        forall i, j | 0 <= i < j < |tail| ensures tail[i].id != tail[j].id {
          assert tail[i] == xs[i + 1] && tail[j] == xs[j + 1];
        }
      }
      WithoutDistinct(tail, id);
      WithoutMembers(tail, id);
      var rest := Without(tail, id);
      if xs[0].id != id {
        forall i | 0 <= i < |rest| ensures rest[i].id != xs[0].id {
          assert rest[i] in tail;
        }
      }
    }
  }

  /** With distinct ids, deleting the assistant at position `k` removes exactly that
      one and keeps the others in order. */
  lemma {:induction false} WithoutAt(xs: seq<Assistant>, k: nat)
    requires DistinctIds(xs) && k < |xs|
    ensures Without(xs, xs[k].id) == xs[..k] + xs[k + 1..]
  {
    var id := xs[k].id;
    var tail := xs[1..];
    assert DistinctIds(tail) by {
      forall i, j | 0 <= i < j < |tail| ensures tail[i].id != tail[j].id {
        assert tail[i] == xs[i + 1] && tail[j] == xs[j + 1];
      }
    }
    if k == 0 {
      forall i | 0 <= i < |tail| ensures tail[i].id != id {
        assert tail[i] == xs[i + 1];
      }
      WithoutAbsent(tail, id);
      assert xs[..0] + xs[1..] == tail;
    } else {
      assert xs[0].id != id;
      assert tail[k - 1] == xs[k];
      WithoutAt(tail, k - 1);
      assert Without(xs, id) == [xs[0]] + Without(tail, id);
      assert tail[..k - 1] == xs[1..k];
      assert tail[k..] == xs[k + 1..];
      assert [xs[0]] + xs[1..k] == xs[..k];
    }
  }

  lemma {:induction false} WithoutAbsent(xs: seq<Assistant>, id: nat)
    requires forall i :: 0 <= i < |xs| ==> xs[i].id != id
    ensures Without(xs, id) == xs
  {
    if xs != [] {
      WithoutAbsent(xs[1..], id);
    }
  }

  /** The remote assistant collection, in listing order, with the calls made on it. */
  class AssistantsApi {
    var assistants: seq<Assistant>
    var nextId: nat
    var calls: seq<ApiCall>

    ghost predicate Valid()
      reads this
    {
      && DistinctIds(assistants)
      && forall i :: 0 <= i < |assistants| ==> assistants[i].id < nextId
    }

    constructor (existing: seq<Assistant>, firstFreeId: nat)
      requires DistinctIds(existing)
      requires forall i :: 0 <= i < |existing| ==> existing[i].id < firstFreeId
      ensures Valid()
      ensures assistants == existing && nextId == firstFreeId && calls == []
    {
      assistants := existing;
      nextId := firstFreeId;
      calls := [];
    }

    /** `client.beta.assistants.list()`. */
    method List() returns (listed: seq<Assistant>)
      requires Valid()
      modifies this`calls
      ensures Valid()
      ensures listed == assistants
      ensures calls == old(calls) + [ListAssistants]
    {
      listed := assistants;
      calls := calls + [ListAssistants];
    }

    /** `client.beta.assistants.delete(assistant_id=id)`. */
    method Delete(id: nat)
      requires Valid()
      modifies this`assistants, this`calls
      ensures Valid()
      ensures assistants == Without(old(assistants), id)
      ensures calls == old(calls) + [DeleteAssistant(id)]
    {
      WithoutMembers(assistants, id);
      WithoutDistinct(assistants, id);
      assistants := Without(assistants, id);
      calls := calls + [DeleteAssistant(id)];
    }

    /** `client.beta.assistants.create(...)`: a new assistant with a fresh id, listed
        first (the service lists the newest assistant first). */
    method Create(name: Option<string>, instructions: Option<string>, model: string, tools: Json.Value)
      returns (created: Assistant)
      requires Valid()
      modifies this
      ensures Valid()
      ensures created == Assistant(old(nextId), name, instructions, model, tools)
      ensures assistants == [created] + old(assistants)
      ensures nextId == old(nextId) + 1
      ensures calls == old(calls) + [CreateAssistant(name, instructions, model, tools)]
    {
      created := Assistant(nextId, name, instructions, model, tools);
      assistants := [created] + assistants;
      nextId := nextId + 1;
      calls := calls + [CreateAssistant(name, instructions, model, tools)];
    }
  }

  /** The position of the first assistant, in listing order, whose name equals `name`. */
  function FirstNamed(xs: seq<Assistant>, name: Option<string>): (k: Option<nat>)
    ensures k.Some? ==> k.value < |xs| && xs[k.value].name == name
    ensures k.Some? ==> forall j :: 0 <= j < k.value ==> xs[j].name != name
    ensures k.None? ==> forall j :: 0 <= j < |xs| ==> xs[j].name != name
  {
    if xs == [] then None
    else if xs[0].name == name then Some(0)
    else match FirstNamed(xs[1..], name)
      case None => None
      case Some(k) => Some(k + 1)
  }

  /** `next((a for a in existing_assistants if a.name == name), None)`. */
  method NextNamed(xs: seq<Assistant>, name: Option<string>) returns (found: Option<Assistant>)
    ensures found.None? <==> FirstNamed(xs, name).None?
    ensures found.Some? ==> found.value == xs[FirstNamed(xs, name).value]
  {
    var i := 0;
    while i < |xs|
      invariant 0 <= i <= |xs|
      invariant forall j :: 0 <= j < i ==> xs[j].name != name
    {
      if xs[i].name == name {
        return Some(xs[i]);
      }
      i := i + 1;
    }
    return None;
  }

  /** `get_or_create_assistant`: reuse the first assistant named `name`; or, when
      `deleteIfExists` holds, delete it and create a new one; with no match, create one. */
  method GetOrCreateAssistant(
    api: AssistantsApi,
    name: Option<string>,
    instructions: Option<string>,
    tools: Json.Value,
    model: string := DefaultModel,
    deleteIfExists: bool := false)
    returns (assistant: Assistant)
    requires api.Valid()
    modifies api
    ensures api.Valid()
    ensures var listed := old(api.assistants);
      var create := CreateAssistant(name, instructions, model, tools);
      var created := Assistant(old(api.nextId), name, instructions, model, tools);
      match FirstNamed(listed, name)
      case Some(k) =>
        if deleteIfExists then
          && assistant == created
          && api.nextId == old(api.nextId) + 1
          && api.assistants == [created] + (listed[..k] + listed[k + 1..])
          && api.calls == old(api.calls) + [ListAssistants, DeleteAssistant(listed[k].id), create]
        else
          && assistant == listed[k]
          && api.nextId == old(api.nextId)
          && api.assistants == listed
          && api.calls == old(api.calls) + [ListAssistants]
      case None =>
        && assistant == created
        && api.nextId == old(api.nextId) + 1
        && api.assistants == [created] + listed
        && api.calls == old(api.calls) + [ListAssistants, create]
  {
    var existing := api.List();
    var found := NextNamed(existing, name);
    if found.Some? {
      if deleteIfExists {
        WithoutAt(existing, FirstNamed(existing, name).value);
        api.Delete(found.value.id);
        assistant := api.Create(name, instructions, model, tools);
        return;
      }
      assistant := found.value;
      return;
    } else {
      assistant := api.Create(name, instructions, model, tools);
      return;
    }
  }
}
