/** The home page (src/app/page.tsx): the generated description, the form input
    it came from, the loading flag and the generation history, which is
    mirrored to local storage under one key. */
module HomePage {
  import opened Common
  import JobDescriptionForm
  import JobDescriptionHistory

  type GenerationInput = JobDescriptionForm.GenerationInput
  type HistoryItem = JobDescriptionHistory.HistoryItem

  const HistoryKey: string := "jobDescriptionHistory"

  /** What `regenerateJobDescription` is called with: the last form input and
      the description shown before the call. */
  datatype RegenerationRequest = RegenerationRequest(input: GenerationInput, originalDescription: string)

  class HomeState {
    var jobDescription: Option<string>
    var isLoading: bool
    var formInput: Option<GenerationInput>
    var history: seq<HistoryItem>
    /** The browser's local storage, as far as this page uses it. */
    var storage: map<string, Stored<seq<HistoryItem>>>

    /** Local storage holds no other history than the one on screen: the
        entry is either absent or the current history. */
    predicate StorageMirrorsHistory()
      reads this
    {
      HistoryKey in storage ==> storage[HistoryKey] == Parsed(history)
    }

    /** The page's initial state, over whatever local storage already holds. */
    constructor (stored: map<string, Stored<seq<HistoryItem>>>)
      ensures jobDescription == None && !isLoading && formInput == None && history == []
      ensures storage == stored
    {
      jobDescription := None;
      isLoading := false;
      formInput := None;
      history := [];
      storage := stored;
    }

    /** The effect on `user`: with a signed-in user, a stored history is
        restored; one that does not parse is deleted. Afterwards storage
        mirrors the history. */
    method RestoreHistory(userPresent: bool)
      modifies this
      ensures !userPresent ==> history == old(history) && storage == old(storage)
      ensures userPresent ==>
        && (HistoryKey !in old(storage) ==> history == old(history) && storage == old(storage))
        && (HistoryKey in old(storage) && old(storage)[HistoryKey].Parsed? ==>
              history == old(storage)[HistoryKey].value && storage == old(storage))
        && (HistoryKey in old(storage) && old(storage)[HistoryKey].Corrupt? ==>
              history == old(history) && storage == old(storage) - {HistoryKey})
      ensures userPresent && HistoryKey in old(storage) ==> StorageMirrorsHistory()
      ensures jobDescription == old(jobDescription) && isLoading == old(isLoading) && formInput == old(formInput)
    {
      if userPresent && HistoryKey in storage {
        match storage[HistoryKey]
        case Parsed(items) =>
          history := items;
        case Corrupt =>
          storage := storage - {HistoryKey};
      }
    }

    /** `addToHistory`: the new item goes first and the whole history is
        written back to storage. */
    method AddToHistory(item: HistoryItem)
      modifies this
      ensures history == [item] + old(history)
      ensures storage == old(storage)[HistoryKey := Parsed(history)]
      ensures StorageMirrorsHistory()
      ensures jobDescription == old(jobDescription) && isLoading == old(isLoading) && formInput == old(formInput)
    {
      history := [item] + history;
      storage := storage[HistoryKey := Parsed(history)];
    }

    /** `handleGenerate` up to the `await`: loading on, the old description
        cleared, the form input remembered and sent unchanged. */
    method BeginGenerate(data: GenerationInput) returns (request: GenerationInput)
      modifies this
      ensures isLoading && jobDescription == None && formInput == Some(data)
      ensures request == data
      ensures history == old(history) && storage == old(storage)
    {
      isLoading := true;
      jobDescription := None;
      formInput := Some(data);
      request := data;
    }

    /** After the `await` of a generation or regeneration: on success the new
        description is shown and recorded first in the history under `title`;
        on failure nothing but the loading flag changes. */
    method CompleteGeneration(title: string, outcome: Outcome<string>, id: string, createdAt: string)
      modifies this
      ensures !isLoading
      ensures outcome.Resolved? ==>
        && jobDescription == Some(outcome.value)
        && history == [JobDescriptionHistory.HistoryItem(id, title, outcome.value, createdAt)] + old(history)
        && storage == old(storage)[HistoryKey := Parsed(history)]
      ensures outcome.Rejected? ==>
        jobDescription == old(jobDescription) && history == old(history) && storage == old(storage)
      ensures formInput == old(formInput)
      ensures old(StorageMirrorsHistory()) || outcome.Resolved? ==> StorageMirrorsHistory()
    {
      if outcome.Resolved? {
        jobDescription := Some(outcome.value);
        AddToHistory(JobDescriptionHistory.HistoryItem(id, title, outcome.value, createdAt));
      }
      isLoading := false;
    }

    /** The whole of `handleGenerate`. The item's title is the submitted role
        title; after a failure no description is shown. */
    method HandleGenerate(data: GenerationInput, outcome: Outcome<string>, id: string, createdAt: string)
      returns (request: GenerationInput)
      modifies this
      ensures request == data && formInput == Some(data) && !isLoading
      ensures outcome.Resolved? ==>
        && jobDescription == Some(outcome.value)
        && history == [JobDescriptionHistory.HistoryItem(id, data.roleTitle, outcome.value, createdAt)] + old(history)
        && StorageMirrorsHistory()
      ensures outcome.Rejected? ==>
        jobDescription == None && history == old(history) && storage == old(storage)
    {
      request := BeginGenerate(data);
      CompleteGeneration(data.roleTitle, outcome, id, createdAt);
    }

    /** The regenerate button is acted on only with a remembered form input
        and a non-empty description. */
    predicate CanRegenerate()
      reads this
    {
      formInput.Some? && Truthy(jobDescription)
    }

    /** `handleRegenerate` up to the `await`. Without a form input or a
        description nothing happens. Otherwise loading starts, the description
        is cleared, and the request carries the form input and the
        description that was shown. */
    method BeginRegenerate() returns (request: Option<RegenerationRequest>)
      modifies this
      ensures request.Some? <==> old(CanRegenerate())
      ensures request.None? ==>
        jobDescription == old(jobDescription) && isLoading == old(isLoading)
      ensures request.Some? ==>
        && request.value == RegenerationRequest(old(formInput).value, old(jobDescription).value)
        && isLoading && jobDescription == None
      ensures formInput == old(formInput) && history == old(history) && storage == old(storage)
    {
      if !CanRegenerate() {
        return None;
      }
      request := Some(RegenerationRequest(formInput.value, jobDescription.value));
      isLoading := true;
      jobDescription := None;
    }

    /** The whole of `handleRegenerate`: the new item is titled with the
        remembered role title. */
    method HandleRegenerate(outcome: Outcome<string>, id: string, createdAt: string)
      returns (request: Option<RegenerationRequest>)
      modifies this
      ensures request.Some? <==> old(CanRegenerate())
      ensures request.None? ==>
        && jobDescription == old(jobDescription) && isLoading == old(isLoading)
        && history == old(history) && storage == old(storage)
      ensures request.Some? && outcome.Resolved? ==>
        && jobDescription == Some(outcome.value)
        && history == [JobDescriptionHistory.HistoryItem(id, old(formInput).value.roleTitle, outcome.value, createdAt)]
                      + old(history)
        && StorageMirrorsHistory()
      ensures request.Some? && outcome.Rejected? ==>
        jobDescription == None && history == old(history) && storage == old(storage)
      ensures request.Some? ==> !isLoading
      ensures formInput == old(formInput)
    {
      request := BeginRegenerate();
      if request.Some? {
        CompleteGeneration(formInput.value.roleTitle, outcome, id, createdAt);
      }
    }
  }
}
