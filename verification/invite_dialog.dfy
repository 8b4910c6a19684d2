/**
 * The invite dialog (src/components/InviteInfluencerDialog.tsx): a required
 * campaign, optional notes, and a send handler that calls
 * `inviteInfluencer` and then closes and clears the dialog. The hook reports
 * its own failures and always returns; the model records each call the
 * handler makes.
 */
module InviteDialog {

  /** One `inviteInfluencer(campaignId, influencerId, notes)` call. */
  datatype InviteCall = InviteCall(campaignId: string, influencerId: string, notes: string)

  class InviteInfluencerDialog {
    const influencerId: string
    var open: bool
    var selectedCampaign: string
    var notes: string
    var loading: bool
    /** The `inviteInfluencer` calls issued so far, oldest first. */
    var calls: seq<InviteCall>

    constructor (influencerId: string)
      ensures this.influencerId == influencerId
      ensures !open && selectedCampaign == "" && notes == "" && !loading && calls == []
    {
      this.influencerId := influencerId;
      open, selectedCampaign, notes, loading, calls := false, "", "", false, [];
    }

    method SetOpen(value: bool)
      modifies this
      ensures open == value
      ensures selectedCampaign == old(selectedCampaign) && notes == old(notes)
      ensures loading == old(loading) && calls == old(calls)
    {
      open := value;
    }

    method SelectCampaign(campaignId: string)
      modifies this
      ensures selectedCampaign == campaignId
      ensures open == old(open) && notes == old(notes) && loading == old(loading) && calls == old(calls)
    {
      selectedCampaign := campaignId;
    }

    method EditNotes(text: string)
      modifies this
      ensures notes == text
      ensures open == old(open) && selectedCampaign == old(selectedCampaign)
      ensures loading == old(loading) && calls == old(calls)
    {
      notes := text;
    }

    /** Send is disabled with no campaign chosen or while a call is in flight. */
    function SendDisabled(): (disabled: bool)
      reads this
      ensures disabled <==> selectedCampaign == "" || loading
    {
      selectedCampaign == "" || loading
    }

    /**
     * The part of `handleInvite` before the `await`: with no campaign nothing
     * happens; otherwise `loading` is set and the call is issued, the notes
     * passed as they are (the empty string included).
     */
    method StartInvite() returns (started: bool)
      modifies this
      ensures started <==> old(selectedCampaign) != ""
      ensures !old(SendDisabled()) ==> started
      ensures !started ==> loading == old(loading) && calls == old(calls)
      ensures started ==> loading && SendDisabled()
      ensures started ==> calls == old(calls) + [InviteCall(old(selectedCampaign), influencerId, old(notes))]
      ensures open == old(open) && selectedCampaign == old(selectedCampaign) && notes == old(notes)
    {
      if selectedCampaign == "" {
        return false;
      }
      loading := true;
      calls := calls + [InviteCall(selectedCampaign, influencerId, notes)];
      started := true;
    }

    /** The part after the `await`: close, clear campaign and notes, then clear `loading`. */
    method InviteReturned()
      modifies this
      ensures !open && selectedCampaign == "" && notes == "" && !loading
      ensures calls == old(calls)
    {
      open := false;
      selectedCampaign := "";
      notes := "";
      loading := false;
    }

    /** `handleInvite` from click to completion. */
    method HandleInvite()
      modifies this
      ensures old(selectedCampaign) == "" ==>
                && open == old(open) && selectedCampaign == old(selectedCampaign) && notes == old(notes)
                && loading == old(loading) && calls == old(calls)
      ensures old(selectedCampaign) != "" ==>
                && calls == old(calls) + [InviteCall(old(selectedCampaign), influencerId, old(notes))]
                && !open && selectedCampaign == "" && notes == "" && !loading
    {
      var started := StartInvite();
      if started {
        InviteReturned();
      }
    }
  }
}
