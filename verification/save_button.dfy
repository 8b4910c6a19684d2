/**
 * The save button (src/components/SaveInfluencerButton.tsx): an effect asks
 * the store whether the influencer is already saved, and a click calls
 * `saveInfluencer` and marks the button saved. The hook reports "already
 * saved" and failures itself and always returns, so the button shows "Saved"
 * after every call that was made; the model records each call. The effect
 * depends on `checkIfSaved`, which the hook re-creates on every render, so
 * its answer may arrive again after any step and overwrite `isSaved`.
 */
module SaveButton {
  import opened Wrappers

  /** How the button is drawn. */
  datatype ButtonView = ButtonView(caption: string, disabled: bool, filledHeart: bool)

  class SaveInfluencerButton {
    const influencerId: string
    /** The signed-in user's id, if any. */
    const user: Option<string>
    var isSaved: bool
    var loading: bool
    /** The `saveInfluencer` calls issued so far (influencer ids), oldest first. */
    var saves: seq<string>

    constructor (influencerId: string, user: Option<string>)
      ensures this.influencerId == influencerId && this.user == user
      ensures !isSaved && !loading && saves == []
    {
      this.influencerId := influencerId;
      this.user := user;
      isSaved, loading, saves := false, false, [];
    }

    /**
     * The effect's answer to "is it saved?", which may arrive after any render:
     * applied only when there is a user and an id. `checkIfSaved` catches its
     * own errors and answers `false`, so a failed check arrives as
     * `Some(false)` and clears `isSaved`; `None` stands for the effect's own
     * error branch, which that hook never takes.
     */
    method SavedStatusArrived(answer: Option<bool>)
      modifies this
      ensures isSaved == if user.Some? && influencerId != "" && answer.Some? then answer.value else old(isSaved)
      ensures loading == old(loading) && saves == old(saves)
    {
      if user.Some? && influencerId != "" && answer.Some? {
        isSaved := answer.value;
      }
    }

    /**
     * The part of `handleSave` before the `await`: while loading or without a
     * user nothing happens; otherwise `loading` is set and the call is issued.
     */
    method StartSave() returns (started: bool)
      modifies this
      ensures started <==> !old(loading) && user.Some?
      ensures !started ==> loading == old(loading) && saves == old(saves)
      ensures started ==> loading && saves == old(saves) + [influencerId]
      ensures isSaved == old(isSaved)
    {
      if loading || user.None? {
        return false;
      }
      loading := true;
      saves := saves + [influencerId];
      started := true;
    }

    /** The part after the `await`: mark as saved, then clear `loading`. */
    method SaveReturned()
      modifies this
      ensures isSaved && !loading
      ensures saves == old(saves)
    {
      isSaved := true;
      loading := false;
    }

    /** `handleSave` from click to completion. */
    method HandleSave()
      modifies this
      ensures old(loading) || user.None? ==>
                isSaved == old(isSaved) && loading == old(loading) && saves == old(saves)
      ensures !old(loading) && user.Some? ==>
                isSaved && !loading && saves == old(saves) + [influencerId]
    {
      var started := StartSave();
      if started {
        SaveReturned();
      }
    }

    /**
     * The rendered button: nothing without a user; otherwise disabled while
     * loading or once saved, captioned "Saving...", "Saved" or "Save".
     */
    function View(): (v: Option<ButtonView>)
      reads this
      ensures v.None? <==> user.None?
      ensures v.Some? ==> (v.value.disabled <==> loading || isSaved)
      ensures v.Some? ==> v.value.caption == if loading then "Saving..." else if isSaved then "Saved" else "Save"
      ensures v.Some? ==> v.value.filledHeart == isSaved
    {
      if user.None? then None
      else Some(ButtonView(if loading then "Saving..." else if isSaved then "Saved" else "Save", loading || isSaved, isSaved))
    }
  }

  /**
   * A second click while the first save is in flight issues no second call,
   * and after the call returns the button is saved and disabled. If the save
   * had failed inside the hook, the effect's next check answers "not saved"
   * and the button is enabled again, so a third click issues a second call.
   */
  method DoubleClickScenario() returns (callsMade: nat, disabledAfter: bool, enabledAfterRecheck: bool, callsAfterRetry: nat)
    ensures callsMade == 1 && disabledAfter
    ensures enabledAfterRecheck && callsAfterRetry == 2
  {
    var b := new SaveInfluencerButton("inf-7", Some("user-1"));
    var first := b.StartSave();
    var second := b.StartSave();
    b.SaveReturned();
    callsMade := |b.saves|;
    var v := b.View();
    disabledAfter := v.Some? && v.value.disabled;
    b.SavedStatusArrived(Some(false));
    var w := b.View();
    enabledAfterRecheck := w.Some? && !w.value.disabled;
    b.HandleSave();
    callsAfterRetry := |b.saves|;
  }
}
