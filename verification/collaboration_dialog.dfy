/**
 * The collaboration-request dialog
 * (src/components/CollaborationRequestDialog.tsx): an optional campaign, a
 * required message, and a send handler that calls `createRequest` and then
 * closes and clears the dialog. The hook reports its own failures and always
 * returns; the model records each call the handler makes.
 */
module CollaborationDialog {
  import opened Wrappers
  import opened Text

  /** One `createRequest(influencerId, message, campaignId)` call. */
  datatype RequestCall = RequestCall(influencerId: string, message: string, campaignId: Option<string>)

  /** `selectedCampaign || undefined`: the empty selection is passed as no campaign. */
  function CampaignArgument(selected: string): (r: Option<string>)
    ensures r.None? <==> selected == ""
    ensures r.Some? ==> r.value == selected
  {
    if selected == "" then None else Some(selected)
  }

  /** `!message.trim()`: the message is empty or whitespace only. */
  predicate BlankMessage(message: string)
  {
    Trim(message) == ""
  }

  /** A message is blank exactly when it has no character other than whitespace. */
  lemma BlankMessageIff(message: string)
    ensures BlankMessage(message) <==> forall k :: 0 <= k < |message| ==> IsWhitespace(message[k])
  {
    TrimEmptyIff(message);
  }

  /** The empty message and one of spaces, newlines and tabs are blank; one with a letter is not. */
  lemma BlankMessageExamples()
    ensures BlankMessage("") && BlankMessage(" \n\t") && !BlankMessage(" hi ")
  {
    var blank, text := " \n\t", " hi ";
    assert IsWhitespace(blank[0]) && IsWhitespace(blank[1]) && IsWhitespace(blank[2]);
    BlankMessageIff(blank);
    assert !IsWhitespace(text[1]);
    BlankMessageIff(text);
  }

  class CollaborationRequestDialog {
    const influencerId: string
    var open: bool
    var selectedCampaign: string
    var message: string
    var loading: bool
    /** The `createRequest` calls issued so far, oldest first. */
    var calls: seq<RequestCall>

    constructor (influencerId: string)
      ensures this.influencerId == influencerId
      ensures !open && selectedCampaign == "" && message == "" && !loading && calls == []
    {
      this.influencerId := influencerId;
      open, selectedCampaign, message, loading, calls := false, "", "", false, [];
    }

    method SetOpen(value: bool)
      modifies this
      ensures open == value
      ensures selectedCampaign == old(selectedCampaign) && message == old(message)
      ensures loading == old(loading) && calls == old(calls)
    {
      open := value;
    }

    method SelectCampaign(campaignId: string)
      modifies this
      ensures selectedCampaign == campaignId
      ensures open == old(open) && message == old(message) && loading == old(loading) && calls == old(calls)
    {
      selectedCampaign := campaignId;
    }

    method EditMessage(text: string)
      modifies this
      ensures message == text
      ensures open == old(open) && selectedCampaign == old(selectedCampaign)
      ensures loading == old(loading) && calls == old(calls)
    {
      message := text;
    }

    /** Send is disabled for a blank message or while a call is in flight. */
    function SendDisabled(): (disabled: bool)
      reads this
      ensures disabled <==> BlankMessage(message) || loading
    {
      BlankMessage(message) || loading
    }

    /**
     * The part of `handleRequest` before the `await`: a blank message does
     * nothing; otherwise `loading` is set and the call is issued with the
     * message exactly as typed.
     */
    method StartRequest() returns (started: bool)
      modifies this
      ensures started <==> !BlankMessage(old(message))
      ensures !old(SendDisabled()) ==> started
      ensures !started ==> loading == old(loading) && calls == old(calls)
      ensures started ==> loading && SendDisabled()
      ensures started ==> calls == old(calls) + [RequestCall(influencerId, old(message), CampaignArgument(old(selectedCampaign)))]
      ensures open == old(open) && selectedCampaign == old(selectedCampaign) && message == old(message)
    {
      if Trim(message) == "" {
        return false;
      }
      loading := true;
      calls := calls + [RequestCall(influencerId, message, CampaignArgument(selectedCampaign))];
      started := true;
    }

    /** The part after the `await`: close, clear campaign and message, then clear `loading`. */
    method RequestReturned()
      modifies this
      ensures !open && selectedCampaign == "" && message == "" && !loading
      ensures calls == old(calls)
    {
      open := false;
      selectedCampaign := "";
      message := "";
      loading := false;
    }

    /** `handleRequest` from click to completion. */
    method HandleRequest()
      modifies this
      ensures BlankMessage(old(message)) ==>
                && open == old(open) && selectedCampaign == old(selectedCampaign) && message == old(message)
                && loading == old(loading) && calls == old(calls)
      ensures !BlankMessage(old(message)) ==>
                && calls == old(calls) + [RequestCall(influencerId, old(message), CampaignArgument(old(selectedCampaign)))]
                && !open && selectedCampaign == "" && message == "" && !loading
    {
      var started := StartRequest();
      if started {
        RequestReturned();
      }
    }
  }
}
