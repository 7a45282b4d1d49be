/**
 * The messaging screen (src/components/MessagesClient.tsx): the recipient
 * selection toggles, the composer's send handler, inline replies and the
 * inbox/sent list loads.
 */
module Messages {
  import opened Wrappers
  import opened Js
  import opened Seqs
  import opened Transport
  import opened Actions

  // ----- Recipient selection -----

  /** Keeps every id other than `id`. */
  function Other(id: int): int -> bool
  {
    x => x != id
  }

  /** Keeps every id not listed in `ids`. */
  function NotIn(ids: seq<int>): int -> bool
  {
    x => x !in ids
  }

  /** `toggleRecipient`: remove `id` where it occurs, or append it when absent. */
  function Toggle(prev: seq<int>, id: int): (r: seq<int>)
    ensures id in r <==> id !in prev
    ensures Filter(Other(id), r) == Filter(Other(id), prev)
    ensures id !in prev ==> r == prev + [id]
  {
    if id in prev then
      FilterIdempotent(Other(id), prev);
      FilterMembers(Other(id), prev, id);
      Filter(Other(id), prev)
    else
      FilterAppend(Other(id), prev, [id]);
      assert Filter(Other(id), [id]) == [] by {
        assert [id][1..] == [];
      }
      prev + [id]
  }

  /** Toggling an absent id twice gives back the original selection. */
  lemma ToggleTwiceRestores(prev: seq<int>, id: int)
    requires id !in prev
    ensures Toggle(Toggle(prev, id), id) == prev
  {
    FilterAppend(Other(id), prev, [id]);
    assert Filter(Other(id), [id]) == [] by {
      assert [id][1..] == [];
    }
    FilterKeepsAll(Other(id), prev);
  }

  /** A duplicate-free selection stays duplicate-free under a toggle. */
  lemma ToggleKeepsNoDup(prev: seq<int>, id: int)
    requires NoDup(prev)
    ensures NoDup(Toggle(prev, id))
  {
    if id in prev {
      FilterNoDup(Other(id), prev);
    } else {
      NoDupAppend(prev, [id]);
    }
  }

  predicate AllSelected(userIds: seq<int>, selected: seq<int>)
  {
    forall id :: id in userIds ==> id in selected
  }

  /** `toggleSelectAll`: deselect the group when all of it is selected, else append its missing ids. */
  function SelectAll(selected: seq<int>, userIds: seq<int>): (r: seq<int>)
    ensures AllSelected(userIds, selected) ==> IsSubsequence(r, selected)
    ensures !AllSelected(userIds, selected) ==> |selected| <= |r| && r[..|selected|] == selected
    ensures !AllSelected(userIds, selected) ==> r[|selected|..] == Filter(NotIn(selected), userIds)
    ensures !AllSelected(userIds, selected) ==> AllSelected(userIds, r)
  {
    if AllSelected(userIds, selected) then
      FilterIsSubsequence(NotIn(userIds), selected);
      Filter(NotIn(userIds), selected)
    else
      var toAdd := Filter(NotIn(selected), userIds);
      forall id | id in userIds
        ensures id in selected + toAdd
      {
        FilterMembers(NotIn(selected), userIds, id);
      }
      assert (selected + toAdd)[..|selected|] == selected;
      assert (selected + toAdd)[|selected|..] == toAdd;
      selected + toAdd
  }

  /** Membership after `toggleSelectAll`: exactly the group's ids removed, or exactly the group's ids added. */
  lemma SelectAllMembers(selected: seq<int>, userIds: seq<int>, x: int)
    ensures AllSelected(userIds, selected) ==> (x in SelectAll(selected, userIds) <==> x in selected && x !in userIds)
    ensures !AllSelected(userIds, selected) ==> (x in SelectAll(selected, userIds) <==> x in selected || x in userIds)
  {
    if AllSelected(userIds, selected) {
      FilterMembers(NotIn(userIds), selected, x);
    } else {
      FilterMembers(NotIn(selected), userIds, x);
    }
  }

  /** With duplicate-free inputs the selection stays duplicate-free. */
  lemma SelectAllKeepsNoDup(selected: seq<int>, userIds: seq<int>)
    requires NoDup(selected) && NoDup(userIds)
    ensures NoDup(SelectAll(selected, userIds))
  {
    if AllSelected(userIds, selected) {
      FilterNoDup(NotIn(userIds), selected);
    } else {
      var toAdd := Filter(NotIn(selected), userIds);
      FilterNoDup(NotIn(selected), userIds);
      forall x | x in selected
        ensures x !in toAdd
      {
        FilterMembers(NotIn(selected), userIds, x);
      }
      NoDupAppend(selected, toAdd);
    }
  }

  // ----- Payloads -----

  function NumList(ids: seq<int>): (r: seq<Json>)
    ensures |r| == |ids| && forall i :: 0 <= i < |ids| ==> r[i] == Num(ids[i])
  {
    seq(|ids|, i requires 0 <= i < |ids| => Num(ids[i]))
  }

  /** A reply id is attached only when it is truthy: present and not zero. */
  predicate ReplyTruthy(replyId: Option<int>)
  {
    replyId.Some? && replyId.value != 0
  }

  /** The composer's payload: title, body and recipients, plus `message_id` for a truthy reply id. */
  function SendPayload(title: string, body: string, selected: seq<int>, replyId: Option<int>): (p: Json)
    ensures p.Obj?
    ensures Field(p, "title") == Str(title) && Field(p, "message") == Str(body)
    ensures Field(p, "recipients") == Arr(NumList(selected))
    ensures "message_id" in p.fields <==> ReplyTruthy(replyId)
    ensures ReplyTruthy(replyId) ==> p.fields["message_id"] == Num(replyId.value)
  {
    var base := map["title" := Str(title), "message" := Str(body), "recipients" := Arr(NumList(selected))];
    if ReplyTruthy(replyId) then Obj(base["message_id" := Num(replyId.value)]) else Obj(base)
  }

  const ReplyTitle := "Re:"

  /** The inline reply's payload: nothing for an empty message, else no recipients and a default title. */
  function ReplyPayload(originalId: int, title: string, message: string): (p: Option<Json>)
    ensures p.None? <==> message == ""
    ensures p.Some? ==> p.value.Obj? && "recipients" !in p.value.fields
    ensures p.Some? ==> Field(p.value, "title") == Str(if title == "" then ReplyTitle else title)
    ensures p.Some? ==> Field(p.value, "message") == Str(message) && Field(p.value, "message_id") == Num(originalId)
  {
    if message == "" then None
    else Some(Obj(map["title" := Str(if title == "" then ReplyTitle else title),
                      "message" := Str(message),
                      "message_id" := Num(originalId)]))
  }

  /** A composed message goes to the messages endpoint with its recipients as numbers. */
  lemma ComposedMessageRequest(title: string, body: string, selected: seq<int>, replyId: Option<int>, jar: Jar, reply: Reply)
    ensures var c := Mutate(SendMessage(SendPayload(title, body, selected, replyId)), jar, reply);
      c.Sent? && c.request.url == ApiUrl + "/guardian/messages" &&
      Field(c.request.body, "recipients") == Arr(NumList(selected))
  {
  }

  // ----- The screen -----

  const SelectFirstText := "Please select at least one recipient"
  const SentText := "Message sent successfully!"
  const SendFailedText := "Failed to send"
  const ReplySentText := "Reply sent!"
  const ReplyFailedText := "Failed to reply"

  datatype Tab = Create | Inbox | Sent

  class MessagesView {
    var activeTab: Tab
    var recipients: Json
    var recipientLoading: bool
    var messageList: Json
    var listLoading: bool
    var title: string
    var body: string
    var selected: seq<int>
    var replyId: Option<int>
    var sending: bool
    var sendSuccess: string

    constructor ()
      ensures activeTab == Inbox && recipients == Arr([]) && messageList == Arr([])
      ensures title == "" && body == "" && selected == [] && replyId == None
      ensures !sending && sendSuccess == "" && !recipientLoading && !listLoading
    {
      activeTab := Inbox;
      recipients := Arr([]);
      recipientLoading := false;
      messageList := Arr([]);
      listLoading := false;
      title := "";
      body := "";
      selected := [];
      replyId := None;
      sending := false;
      sendSuccess := "";
    }

    method ToggleRecipient(id: int)
      modifies this
      ensures selected == Toggle(old(selected), id)
      ensures NoDup(old(selected)) ==> NoDup(selected)
    {
      if NoDup(selected) {
        ToggleKeepsNoDup(selected, id);
      }
      selected := Toggle(selected, id);
    }

    method ToggleSelectAll(userIds: seq<int>)
      modifies this
      ensures selected == SelectAll(old(selected), userIds)
      ensures NoDup(old(selected)) && NoDup(userIds) ==> NoDup(selected)
    {
      if NoDup(selected) && NoDup(userIds) {
        SelectAllKeepsNoDup(selected, userIds);
      }
      selected := SelectAll(selected, userIds);
    }

    /** `fetchRecipients`: a successful load replaces the list, a failed one keeps it. */
    method FetchRecipients(reply: Reply)
      modifies this
      ensures recipients == if Fetch(Recipients, reply).success then Fetch(Recipients, reply).data else old(recipients)
      ensures !recipientLoading
      ensures messageList == old(messageList)
      ensures activeTab == old(activeTab) && title == old(title) && body == old(body) && selected == old(selected)
      ensures replyId == old(replyId) && sending == old(sending) && sendSuccess == old(sendSuccess)
    {
      recipientLoading := true;
      var result := Fetch(Recipients, reply);
      if result.success {
        recipients := result.data;
      }
      recipientLoading := false;
    }

    /** `fetchMessages`: the list is cleared first, so a failed load leaves it empty. */
    method FetchMessages(box: Mailbox, reply: Reply)
      modifies this
      ensures messageList == if Fetch(Messages(box), reply).success then Fetch(Messages(box), reply).data else Arr([])
      ensures !listLoading
      ensures recipients == old(recipients)
      ensures activeTab == old(activeTab) && title == old(title) && body == old(body) && selected == old(selected)
      ensures replyId == old(replyId) && sending == old(sending) && sendSuccess == old(sendSuccess)
    {
      listLoading := true;
      messageList := Arr([]);
      var result := Fetch(Messages(box), reply);
      if result.success {
        messageList := result.data;
      }
      listLoading := false;
    }

    /** The tab effect, on mount and on every tab change: loads the recipients, the inbox or the sent box. */
    method RunTabEffect(reply: Reply)
      modifies this
      ensures activeTab == old(activeTab)
      ensures title == old(title) && body == old(body) && selected == old(selected)
      ensures replyId == old(replyId) && sending == old(sending) && sendSuccess == old(sendSuccess)
      ensures activeTab == Create ==>
        messageList == old(messageList) &&
        recipients == (if Fetch(Recipients, reply).success then Fetch(Recipients, reply).data else old(recipients))
      ensures activeTab != Create ==>
        recipients == old(recipients) &&
        var r := Fetch(Messages(if activeTab == Inbox then Receive else Send), reply);
        messageList == if r.success then r.data else Arr([])
    {
      match activeTab {
        case Create => FetchRecipients(reply);
        case Inbox => FetchMessages(Receive, reply);
        case Sent => FetchMessages(Send, reply);
      }
    }

    /** A tab click. The effect depends on the tab alone, so clicking the active tab loads nothing. */
    method SelectTab(tab: Tab, reply: Reply)
      modifies this
      ensures activeTab == tab
      ensures tab == old(activeTab) ==> unchanged(this)
      ensures tab != old(activeTab) ==>
        title == old(title) && body == old(body) && selected == old(selected) &&
        replyId == old(replyId) && sending == old(sending) && sendSuccess == old(sendSuccess)
      ensures tab != old(activeTab) && tab == Create ==>
        messageList == old(messageList) &&
        recipients == (if Fetch(Recipients, reply).success then Fetch(Recipients, reply).data else old(recipients))
      ensures tab != old(activeTab) && tab != Create ==>
        recipients == old(recipients) &&
        var r := Fetch(Messages(if tab == Inbox then Receive else Send), reply);
        messageList == if r.success then r.data else Arr([])
    {
      if tab != activeTab {
        activeTab := tab;
        RunTabEffect(reply);
      }
    }

    /**
     * `handleSend`. With nothing selected it only alerts. Otherwise it sends
     * the composed payload; success clears the form, failure alerts and keeps
     * it, and a rejected call leaves `sending` on.
     */
    method HandleSend(call: Settled<Envelope>) returns (payload: Option<Json>, alert: Option<Json>)
      modifies this
      ensures old(selected) == [] ==>
        payload == None && alert == Some(Str(SelectFirstText)) &&
        sending == old(sending) && sendSuccess == old(sendSuccess)
      ensures old(selected) != [] ==> payload == Some(SendPayload(old(title), old(body), old(selected), old(replyId)))
      ensures old(selected) != [] && call.Resolved? && call.value.success ==>
        alert == None && sendSuccess == SentText && !sending &&
        title == "" && body == "" && selected == [] && replyId == None
      ensures old(selected) != [] && call.Resolved? && !call.value.success ==>
        alert == Some(Or(call.value.message, Str(SendFailedText))) && sendSuccess == "" && !sending
      ensures old(selected) != [] && call.Rejected? ==> alert == None && sendSuccess == "" && sending
      ensures !(old(selected) != [] && call.Resolved? && call.value.success) ==>
        title == old(title) && body == old(body) && selected == old(selected) && replyId == old(replyId)
      ensures recipients == old(recipients) && messageList == old(messageList) && activeTab == old(activeTab)
    {
      if |selected| == 0 {
        return None, Some(Str(SelectFirstText));
      }
      sending := true;
      sendSuccess := "";
      payload := Some(SendPayload(title, body, selected, replyId));
      alert := None;
      if call.Rejected? {
        return;
      }
      var result := call.value;
      if result.success {
        sendSuccess := SentText;
        title := "";
        body := "";
        selected := [];
        replyId := None;
      } else {
        alert := Some(Or(result.message, Str(SendFailedText)));
      }
      sending := false;
    }

    /** `handleReplySend`: an empty reply sends nothing; a sent one alerts and, on success, reloads the inbox. */
    method HandleReplySend(originalId: int, replyTitle: string, message: string, call: Settled<Envelope>, refresh: Reply)
      returns (payload: Option<Json>, alert: Option<Json>)
      modifies this
      ensures payload == ReplyPayload(originalId, replyTitle, message)
      ensures payload.None? || call.Rejected? ==> alert == None && messageList == old(messageList)
      ensures payload.Some? && call.Resolved? && call.value.success ==>
        alert == Some(Str(ReplySentText)) &&
        messageList == (if Fetch(Messages(Receive), refresh).success then Fetch(Messages(Receive), refresh).data else Arr([]))
      ensures payload.Some? && call.Resolved? && !call.value.success ==>
        alert == Some(Or(call.value.message, Str(ReplyFailedText))) && messageList == old(messageList)
      ensures title == old(title) && body == old(body) && selected == old(selected) && replyId == old(replyId)
      ensures sending == old(sending) && recipients == old(recipients)
    {
      payload := ReplyPayload(originalId, replyTitle, message);
      alert := None;
      if payload.None? || call.Rejected? {
        return;
      }
      if call.value.success {
        alert := Some(Str(ReplySentText));
        FetchMessages(Receive, refresh);
      } else {
        alert := Some(Or(call.value.message, Str(ReplyFailedText)));
      }
    }
  }
}
