/**
 * The submit handler of the tracking form (script.js, trackBtn.onclick):
 * validate, disable the button, fetch, save on success, re-enable.
 */
module Controller {
  import opened Wrappers
  import opened Validation
  import opened Packages
  import opened Store
  import opened Tracking

  /** The messages the handler shows. InvalidInput and FetchError are looked
      up in the current language's table; TrackingUpdated is the fixed text
      "Tracking info updated!". */
  datatype MessageText = InvalidInput | FetchErrorText | TrackingUpdated

  /** The message area: empty, or a text shown as an error or as a success. */
  datatype Message = NoMessage | Shown(text: MessageText, isError: bool)

  class TrackerView {
    const store: PackageStore
    /** The tracking-number input field's text. */
    var input: string
    /** trackBtn.disabled */
    var buttonDisabled: bool
    /** The loading indicator is visible and the button label dimmed. */
    var loading: bool
    var message: Message

    /** The page after load. Whether the button starts disabled depends on
        the page's markup, so it is a parameter. */
    constructor (store: PackageStore, disabled: bool)
      ensures this.store == store
      ensures input == "" && buttonDisabled == disabled && !loading && message == NoMessage
    {
      this.store := store;
      input := "";
      buttonDisabled := disabled;
      loading := false;
      message := NoMessage;
    }

    /** One click on the track button. `response` is what the tracking
        service returns for the request and `now` the local time when it
        arrives. `requested` is the number sent to the service, or None when
        no request was made.
        Invalid input: the invalid-input message, no request, nothing else
        changes. Valid input: the trimmed number is requested and the reply
        handled as in Track. */
    method Submit(response: FetchOutcome, now: string) returns (requested: Option<string>)
      modifies this, store
      ensures !ValidateTrackingNumber(old(input)) ==>
                && requested == None
                && message == Shown(InvalidInput, true)
                && input == old(input)
                && buttonDisabled == old(buttonDisabled) && loading == old(loading)
                && store.item == old(store.item)
      ensures ValidateTrackingNumber(old(input)) ==>
                && requested == Some(Trim(old(input)))
                && !buttonDisabled && !loading
      ensures ValidateTrackingNumber(old(input)) && FetchTrackingInfo(response, now).Failure? ==>
                && message == Shown(FetchErrorText, true)
                && input == old(input)
                && store.item == old(store.item)
      ensures ValidateTrackingNumber(old(input)) && FetchTrackingInfo(response, now).Success? ==>
                && message == Shown(TrackingUpdated, false)
                && input == ""
                && store.SavedPackages()
                     == Inserted(old(store.SavedPackages()), FetchTrackingInfo(response, now).value)
      ensures Unique(old(store.SavedPackages())) ==> Unique(store.SavedPackages())
    {
      message := NoMessage;
      var trackingNumber := Trim(input);
      ValidateTrimmed(input);
      var valid := ValidateTrackingNumber(trackingNumber);
      if !valid {
        message := Shown(InvalidInput, true);
        requested := None;
      } else {
        requested := Some(trackingNumber);
        Track(response, now);
      }
    }

    /** The request part of a click on valid input: disable the button and
        show the loading indicator, then on success add the record through
        addPackage, show the success message and clear the input, or on
        failure show the fetch-error message and leave store and input as
        they were; finally re-enable the button and hide the indicator. */
    method Track(response: FetchOutcome, now: string)
      modifies this, store
      ensures !buttonDisabled && !loading
      ensures FetchTrackingInfo(response, now).Failure? ==>
                && message == Shown(FetchErrorText, true)
                && input == old(input)
                && store.item == old(store.item)
      ensures FetchTrackingInfo(response, now).Success? ==>
                && message == Shown(TrackingUpdated, false)
                && input == ""
                && store.SavedPackages()
                     == Inserted(old(store.SavedPackages()), FetchTrackingInfo(response, now).value)
      ensures Unique(old(store.SavedPackages())) ==> Unique(store.SavedPackages())
    {
      buttonDisabled := true;
      loading := true;

      var info := FetchTrackingInfo(response, now);
      if info.Success? {
        store.AddPackage(info.value);
        message := Shown(TrackingUpdated, false);
        input := "";
      } else {
        message := Shown(FetchErrorText, true);
      }

      buttonDisabled := false;
      loading := false;
    }
  }
}
