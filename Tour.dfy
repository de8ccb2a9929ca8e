/**
 * The onboarding tour: a `run` flag that starts and stops the guided tour,
 * and the storage key "tour-completed" that remembers a finished or skipped
 * tour across visits. `useTour` is the context accessor, which throws
 * outside a provider.
 */
module Tour {
  import opened Common
  import opened Storage

  const TourCompletedKey: string := "tour-completed"

  /** The statuses the tour library reports to its callback. */
  datatype Status = Idle | Ready | Waiting | Running | Paused | Skipped | Finished | Error

  /** `[STATUS.FINISHED, STATUS.SKIPPED].includes(status)`. */
  predicate Ends(status: Status) {
    status == Finished || status == Skipped
  }

  /** `!localStorage.getItem("tour-completed")`: no record, or an empty one, of a completed tour. */
  predicate TourPending(items: map<string, string>) {
    TourCompletedKey !in items || items[TourCompletedKey] == ""
  }

  class TourProvider {
    var run: bool
    const storage: LocalStorage

    constructor(storage: LocalStorage)
      ensures this.storage == storage && !run
    {
      this.storage := storage;
      run := false;
    }

    /** `startTour`: run the tour; storage is not touched. */
    method StartTour()
      modifies this
      ensures run
    {
      run := true;
    }

    /** `resetTour`: forget the completed tour and run it again. */
    method ResetTour()
      modifies this, storage
      ensures run
      ensures storage.items == old(storage.items) - {TourCompletedKey}
      ensures TourPending(storage.items)
    {
      storage.RemoveItem(TourCompletedKey);
      run := true;
    }

    /** `handleJoyrideCallback`: a finished or skipped tour stops and is remembered; any other status changes nothing. */
    method JoyrideCallback(status: Status)
      modifies this, storage
      ensures Ends(status) ==> !run && storage.items == old(storage.items)[TourCompletedKey := "true"]
      ensures Ends(status) ==> !TourPending(storage.items)
      ensures !Ends(status) ==> run == old(run) && storage.items == old(storage.items)
    {
      if Ends(status) {
        run := false;
        storage.SetItem(TourCompletedKey, "true");
      }
    }
  }

  const OutsideProviderMessage: string := "useTour must be used within a TourProvider"

  /** `useTour`: the provider's context, or the error thrown when there is none. */
  function UseTour(context: Option<TourProvider>): (r: Result<TourProvider>)
    ensures context.Some? ==> r == Ok(context.value)
    ensures context.None? ==> r == Thrown(OutsideProviderMessage)
  {
    if context.None? then Thrown(OutsideProviderMessage) else Ok(context.value)
  }
}
