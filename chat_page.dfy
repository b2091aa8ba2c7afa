/**
 * The chat view controller: the conversation list with its summaries, the
 * message list of the selected conversation kept in step with the realtime
 * feed of the `messages` table, and the compose, edit and delete buffers.
 * Every handler and every feed event is one atomic transition of `ChatView`;
 * the backend's answers are its parameters.
 */
module ChatPage {
  import opened Backend
  import opened Text
  import Seqs
  import opened Conversations

  /** A conversation as the list shows it. */
  datatype Summary = Summary(id: Id, otherUserId: Option<Id>, name: string, avatar: string,
                             lastMessage: Option<string>, timestamp: string)

  /** The preview line: 'Aucun message' without a message, 'Photo' when the latest message
      carries an image (whatever its text), otherwise its text, which may be null. */
  function Preview(c: ConversationRow): (r: Option<string>)
    ensures c.messages == [] ==> r == Some("Aucun message")
    ensures c.messages != [] && Truthy(c.messages[0].imageUrl) ==> r == Some("Photo")
    ensures c.messages != [] && !Truthy(c.messages[0].imageUrl) ==> r == c.messages[0].content
  {
    if c.messages == [] then Some("Aucun message")
    else if Truthy(c.messages[0].imageUrl) then Some("Photo")
    else c.messages[0].content
  }

  /** One entry of `formattedConversations` before the sort. */
  function Summarize(user: Id, profiles: seq<Profile>, c: ConversationRow): Summary {
    var other := FirstOther(c.participantIds, user);
    var profile := LookupProfile(profiles, other);
    Summary(c.id, other, DisplayName(profile), AvatarUrl(profile, other), Preview(c), Timestamp(c))
  }

  function SummarizeAll(user: Id, profiles: seq<Profile>, rows: seq<ConversationRow>): (r: seq<Summary>)
    ensures |r| == |rows|
    ensures forall i :: 0 <= i < |rows| ==> r[i] == Summarize(user, profiles, rows[i])
  {
    if rows == [] then [] else [Summarize(user, profiles, rows[0])] + SummarizeAll(user, profiles, rows[1..])
  }

  /** `a` may stand before `b` under the comparator `!a.timestamp ? 1 : !b.timestamp ? -1 :
      b.timestamp.localeCompare(a.timestamp)`: entries without a timestamp go last, the
      others newest (greatest string) first. */
  predicate InOrder(a: Summary, b: Summary) {
    b.timestamp == "" || (a.timestamp != "" && !LexLess(a.timestamp, b.timestamp))
  }

  ghost predicate SortedByRecency(s: seq<Summary>) {
    forall i, j :: 0 <= i < j < |s| ==> InOrder(s[i], s[j])
  }

  lemma InOrderTotal(a: Summary, b: Summary)
    ensures InOrder(a, b) || InOrder(b, a)
  {
    LexLessAsymmetric(a.timestamp, b.timestamp);
  }

  lemma InOrderTransitive(a: Summary, b: Summary, c: Summary)
    requires InOrder(a, b) && InOrder(b, c)
    ensures InOrder(a, c)
  {
    if c.timestamp != "" && LexLess(a.timestamp, c.timestamp) {
      LexLessTotal(a.timestamp, b.timestamp);
      if LexLess(b.timestamp, a.timestamp) {
        LexLessTransitive(b.timestamp, a.timestamp, c.timestamp);
      }
    }
  }

  /** Puts `x` in front of the first entry it may precede. */
  function InsertByRecency(x: Summary, s: seq<Summary>): (r: seq<Summary>)
    requires SortedByRecency(s)
    ensures SortedByRecency(r)
    ensures multiset(r) == multiset(s) + multiset{x}
  {
    if s == [] then [x]
    else if InOrder(x, s[0]) then
      assert forall j :: 0 <= j < |s| ==> InOrder(x, s[j]) by {
        forall j | 0 <= j < |s| ensures InOrder(x, s[j]) {
          if j > 0 { InOrderTransitive(x, s[0], s[j]); }
        }
      }
      [x] + s
    else
      var r := InsertByRecency(x, s[1..]);
      InOrderTotal(x, s[0]);
      assert s == [s[0]] + s[1..];
      assert forall j :: 0 <= j < |r| ==> InOrder(s[0], r[j]) by {
        forall j | 0 <= j < |r| ensures InOrder(s[0], r[j]) {
          assert r[j] in multiset(r);
          if r[j] != x {
            assert r[j] in multiset(s[1..]);
            var k :| 0 <= k < |s[1..]| && s[1..][k] == r[j];
            assert s[k + 1] == r[j];
          }
        }
      }
      [s[0]] + r
  }

  /** `summaries.sort(comparator)`, as an insertion sort. */
  function SortByRecency(s: seq<Summary>): (r: seq<Summary>)
    ensures SortedByRecency(r)
    ensures multiset(r) == multiset(s)
  {
    if s == [] then []
    else
      assert s == [s[0]] + s[1..];
      InsertByRecency(s[0], SortByRecency(s[1..]))
  }

  /** The list `fetchConversations` stores: one summary per row, entries without a timestamp
      after all the others, and the timestamped ones in descending string order. */
  function BuildSummaries(user: Id, rows: seq<ConversationRow>, profiles: seq<Profile>): (r: seq<Summary>)
    ensures |r| == |rows|
    ensures multiset(r) == multiset(SummarizeAll(user, profiles, rows))
    ensures forall i, j :: 0 <= i < j < |r| && r[i].timestamp == "" ==> r[j].timestamp == ""
    ensures forall i, j :: 0 <= i < j < |r| && r[j].timestamp != "" ==> !LexLess(r[i].timestamp, r[j].timestamp)
  {
    var r := SortByRecency(SummarizeAll(user, profiles, rows));
    assert |r| == |multiset(r)|;
    r
  }

  /** The conversation list once `fetchConversations` has had its two answers: untouched
      without a user or on an error, emptied when nobody else takes part, rebuilt otherwise. */
  function Refreshed(user: Option<Id>, current: seq<Summary>, rows: Reply<seq<ConversationRow>>,
                     profiles: Reply<seq<Profile>>): seq<Summary>
  {
    if user.None? || rows.Err? then current
    else if OtherParticipantIds(user.value, rows.value) == [] then []
    else if profiles.Err? then current
    else BuildSummaries(user.value, rows.value, profiles.value)
  }

  /** A row of `messages`. */
  datatype Message = Message(id: Id, conversationId: Id, senderId: Id, content: Option<string>,
                             imageUrl: Option<string>, createdAt: string, updatedAt: Option<string>)

  function MessageId(m: Message): Id { m.id }

  /** The old row of a DELETE event: its id, and its conversation id when the feed sends it. */
  datatype DeletedRow = DeletedRow(id: Id, conversationId: Option<Id>)

  /** A change event of the realtime feed on `messages`. */
  datatype ChangeEvent = Inserted(row: Message) | Updated(row: Message) | Deleted(gone: DeletedRow)

  /** The conversation id the handler reads from the event (`payload.new` or `payload.old`). */
  function EventConversation(ev: ChangeEvent): Option<Id> {
    match ev
    case Inserted(m) => Some(m.conversationId)
    case Updated(m) => Some(m.conversationId)
    case Deleted(d) => d.conversationId
  }

  /** The message list after one feed event; `selected` is `selectedConversation?.id`, and
      the match is JavaScript's `===`, under which two undefined values are equal. */
  function ApplyEvent(ms: seq<Message>, selected: Option<Id>, ev: ChangeEvent): seq<Message> {
    if EventConversation(ev) != selected then ms
    else
      match ev
      case Inserted(m) => ms + [m]
      case Updated(m) => Seqs.Replace(ms, MessageId, m.id, m)
      case Deleted(d) => Seqs.Without(ms, MessageId, d.id)
  }

  /** An INSERT for the open conversation appends its row after the unchanged earlier messages. */
  lemma InsertAppends(ms: seq<Message>, selected: Option<Id>, m: Message)
    requires selected == Some(m.conversationId)
    ensures var r := ApplyEvent(ms, selected, Inserted(m));
            |r| == |ms| + 1 && r[|ms|] == m && r[..|ms|] == ms
  {
  }

  /** An UPDATE for the open conversation keeps length and order, swaps in the new row for
      every message with its id, and changes nothing when no message has that id. */
  lemma UpdateReplacesInPlace(ms: seq<Message>, selected: Option<Id>, m: Message)
    requires selected == Some(m.conversationId)
    ensures var r := ApplyEvent(ms, selected, Updated(m));
            && |r| == |ms|
            && (forall i :: 0 <= i < |ms| ==> r[i] == if ms[i].id == m.id then m else ms[i])
            && ((forall i :: 0 <= i < |ms| ==> ms[i].id != m.id) ==> r == ms)
  {
  }

  /** A DELETE for the open conversation keeps exactly the messages with another id. */
  lemma DeleteRemovesId(ms: seq<Message>, selected: Option<Id>, d: DeletedRow)
    requires selected == d.conversationId
    ensures var r := ApplyEvent(ms, selected, Deleted(d));
            forall x :: x in r <==> x in ms && x.id != d.id
  {
  }

  /** When message ids are unique, a DELETE for the open conversation removes exactly the one
      message with that id and keeps every other one in its place. */
  lemma {:induction false} DeleteRemovesOne(ms: seq<Message>, selected: Option<Id>, d: DeletedRow, k: nat)
    requires selected == d.conversationId
    requires forall i, j :: 0 <= i < j < |ms| ==> ms[i].id != ms[j].id
    requires k < |ms| && ms[k].id == d.id
    ensures ApplyEvent(ms, selected, Deleted(d)) == ms[..k] + ms[k + 1..]
  {
    assert ms == ms[..k] + ([ms[k]] + ms[k + 1..]);
    Seqs.WithoutAppend(ms[..k], [ms[k]] + ms[k + 1..], MessageId, d.id);
    Seqs.WithoutAppend([ms[k]], ms[k + 1..], MessageId, d.id);
    assert Seqs.Without([ms[k]], MessageId, d.id) == [];
    Seqs.WithoutAbsent(ms[..k], MessageId, d.id);
    Seqs.WithoutAbsent(ms[k + 1..], MessageId, d.id);
  }

  /** An event tagged with another conversation, or with any conversation while none is
      open, leaves the message list as it is. */
  lemma OtherConversationIgnored(ms: seq<Message>, selected: Option<Id>, ev: ChangeEvent)
    requires EventConversation(ev).Some? && EventConversation(ev) != selected
    ensures ApplyEvent(ms, selected, ev) == ms
  {
  }

  /** As written, a DELETE whose old row lacks `conversation_id` matches when no conversation
      is open (`undefined === undefined`) and filters the list kept from the last one. */
  lemma UntaggedDeleteMatchesNoSelection(ms: seq<Message>, id: Id)
    ensures ApplyEvent(ms, None, Deleted(DeletedRow(id, None))) == Seqs.Without(ms, MessageId, id)
  {
  }

  /** `conversations.find(c => c.id === id)`. */
  function FindById(cs: seq<Summary>, id: Id): (r: Option<Summary>)
    ensures r.Some? ==> r.value in cs && r.value.id == id
    ensures r.None? <==> forall c :: c in cs ==> c.id != id
  {
    if cs == [] then None
    else if cs[0].id == id then Some(cs[0])
    else
      assert forall c :: c in cs ==> c == cs[0] || c in cs[1..];
      FindById(cs[1..], id)
  }

  /** `prev.find(c => c.id === s.id) ? prev : [s, ...prev]`. */
  function PrependIfAbsent(cs: seq<Summary>, s: Summary): (r: seq<Summary>)
    ensures FindById(r, s.id).Some?
    ensures FindById(cs, s.id).Some? ==> r == cs
    ensures FindById(cs, s.id).None? ==> r[0] == s && r[1..] == cs
  {
    if FindById(cs, s.id).Some? then cs else [s] + cs
  }

  /** Loading the same conversation twice adds it once. */
  lemma PrependIfAbsentIdempotent(cs: seq<Summary>, s: Summary)
    ensures PrependIfAbsent(PrependIfAbsent(cs, s), s) == PrependIfAbsent(cs, s)
  {
  }

  /** A list whose ids are distinct keeps them distinct. */
  lemma PrependIfAbsentKeepsIdsDistinct(cs: seq<Summary>, s: Summary)
    requires forall i, j :: 0 <= i < j < |cs| ==> cs[i].id != cs[j].id
    ensures var r := PrependIfAbsent(cs, s);
            forall i, j :: 0 <= i < j < |r| ==> r[i].id != r[j].id
  {
    var r := PrependIfAbsent(cs, s);
    if FindById(cs, s.id).None? {
      forall i, j | 0 <= i < j < |r| ensures r[i].id != r[j].id {
        if i == 0 { assert r[j] == cs[j - 1] && r[j] in cs; }
        else { assert r[i] == cs[i - 1] && r[j] == cs[j - 1]; }
      }
    }
  }

  /** The entry a direct navigation selects: built from the fetched row and the first profile,
      with 'Nouvelle conversation' as preview and the current time; none when the row has
      no other participant or no profile came back. */
  function DirectSummary(user: Id, row: ConversationRow, profiles: seq<Profile>, now: string): (r: Option<Summary>)
    ensures r.Some? ==> r.value.id == row.id && r.value.lastMessage == Some("Nouvelle conversation")
    ensures r.Some? <==> FirstOther(row.participantIds, user).Some? && profiles != []
  {
    var other := FirstOther(row.participantIds, user);
    if other.None? || profiles == [] then None
    else Some(Summary(row.id, other, DisplayName(Some(profiles[0])), AvatarUrl(Some(profiles[0]), other),
                      Some("Nouvelle conversation"), now))
  }

  /** An image the user picked; `mimeType` is the browser's `file.type`. */
  datatype File = File(name: string, mimeType: string)

  /** The row handleSendMessage inserts into `messages`. */
  datatype OutgoingMessage = OutgoingMessage(conversationId: Id, senderId: Id, content: Option<string>,
                                             imageUrl: Option<string>)

  /** The update handleEditMessage sends (its `updated_at` is the clock's, not modelled). */
  datatype ContentEdit = ContentEdit(messageId: Id, content: string)

  class ChatView {
    const user: Option<Id>
    var conversations: seq<Summary>
    var selected: Option<Summary>
    var messages: seq<Message>
    var newMessage: string
    var imageFile: Option<File>
    var imagePreview: Option<string>
    var loading: bool
    var loadingMessages: bool
    var sendingMessage: bool
    var editingMessage: Option<Message>
    var editingContent: Option<string>
    var deletingMessage: Option<Message>

    constructor (user: Option<Id>)
      ensures this.user == user && conversations == [] && selected == None && messages == []
      ensures newMessage == "" && imageFile == None && imagePreview == None
      ensures loading && !loadingMessages && !sendingMessage
      ensures editingMessage == None && editingContent == Some("") && deletingMessage == None
    {
      this.user := user;
      conversations, selected, messages := [], None, [];
      newMessage, imageFile, imagePreview := "", None, None;
      loading, loadingMessages, sendingMessage := true, false, false;
      editingMessage, editingContent, deletingMessage := None, Some(""), None;
    }

    /** `selectedConversation?.id`. */
    function SelectedId(): Option<Id>
      reads this`selected
    {
      if selected.Some? then Some(selected.value.id) else None
    }

    /** fetchConversations with the answers of the conversation query and the profile lookup. */
    method FetchConversations(rows: Reply<seq<ConversationRow>>, profiles: Reply<seq<Profile>>)
      modifies this`conversations, this`loading
      ensures conversations == Refreshed(user, old(conversations), rows, profiles)
      ensures loading == if user.None? then old(loading) else false
    {
      if user.None? { return; }
      loading := true;
      if rows.Ok? {
        var others := OtherParticipantIds(user.value, rows.value);
        if others == [] {
          conversations := [];
          loading := false;
          return;
        }
        if profiles.Ok? {
          conversations := BuildSummaries(user.value, rows.value, profiles.value);
        }
      }
      loading := false;
    }

    /** The realtime callback: applies the event to the open conversation's messages, then
        refreshes the conversation list whatever the event was. */
    method OnChange(ev: ChangeEvent, rows: Reply<seq<ConversationRow>>, profiles: Reply<seq<Profile>>)
      modifies this`messages, this`conversations, this`loading
      ensures messages == ApplyEvent(old(messages), SelectedId(), ev)
      ensures conversations == Refreshed(user, old(conversations), rows, profiles)
      ensures loading == if user.None? then old(loading) else false
    {
      var sel := SelectedId();
      match ev {
        case Inserted(m) =>
          if Some(m.conversationId) == sel { messages := messages + [m]; }
        case Updated(m) =>
          if Some(m.conversationId) == sel { messages := Seqs.Replace(messages, MessageId, m.id, m); }
        case Deleted(d) =>
          if d.conversationId == sel { messages := Seqs.Without(messages, MessageId, d.id); }
      }
      FetchConversations(rows, profiles);
    }

    /** A click on a conversation (or the back button, with `None`). */
    method SelectConversation(c: Option<Summary>)
      modifies this`selected
      ensures selected == c
    {
      selected := c;
    }

    /** fetchMessages for the selected conversation, run whenever the selection changes. */
    method FetchMessages(reply: Reply<seq<Message>>)
      modifies this`messages, this`loadingMessages
      ensures var fetching := selected.Some? && selected.value.id != "";
              && messages == (if fetching && reply.Ok? then reply.value else old(messages))
              && loadingMessages == (if fetching then false else old(loadingMessages))
    {
      if selected.None? || selected.value.id == "" { return; }
      loadingMessages := true;
      if reply.Ok? {
        messages := reply.value;
      }
      loadingMessages := false;
    }

    /** handleDirectConversationLoad for the conversation id carried by the navigation. */
    method DirectLoad(target: Option<Id>, row: Reply<ConversationRow>, profiles: Reply<seq<Profile>>, now: string)
      modifies this`conversations, this`selected, this`loadingMessages
      ensures old(loading) || !Truthy(target) || user.None? || old(SelectedId()) == target ==>
                conversations == old(conversations) && selected == old(selected) && loadingMessages == old(loadingMessages)
      ensures !old(loading) && Truthy(target) && user.Some? && old(SelectedId()) != target ==>
                var found := FindById(old(conversations), target.value);
                var fetched := if found.None? && row.Ok? && profiles.Ok?
                               then DirectSummary(user.value, row.value, profiles.value, now) else None;
                && (found.Some? ==> selected == found && conversations == old(conversations)
                                    && loadingMessages == old(loadingMessages))
                && (found.None? ==> !loadingMessages)
                && (found.None? && fetched.Some? ==>
                      selected == fetched && conversations == PrependIfAbsent(old(conversations), fetched.value))
                && (found.None? && fetched.None? ==> selected == old(selected) && conversations == old(conversations))
    {
      if loading || !Truthy(target) || user.None? { return; }
      if SelectedId() == target { return; }
      var existing := FindById(conversations, target.value);
      if existing.Some? {
        selected := existing;
        return;
      }
      loadingMessages := true;
      if row.Ok? {
        var other := FirstOther(row.value.participantIds, user.value);
        if other.Some? && profiles.Ok? && profiles.value != [] {
          var p := profiles.value[0];
          var convo := Summary(row.value.id, other, DisplayName(Some(p)), AvatarUrl(Some(p), other),
                               Some("Nouvelle conversation"), now);
          conversations := PrependIfAbsent(conversations, convo);
          selected := Some(convo);
        }
      }
      loadingMessages := false;
    }

    /** Typing into the compose field. */
    method TypeMessage(text: string)
      modifies this`newMessage
      ensures newMessage == text
    {
      newMessage := text;
    }

    /** handleImageSelect: stages the first picked file when its type is an image. */
    method HandleImageSelect(file: Option<File>) returns (rejected: bool)
      modifies this`imageFile
      ensures rejected <==> !(file.Some? && IsPrefix("image/", file.value.mimeType))
      ensures imageFile == if rejected then old(imageFile) else file
    {
      rejected := !(file.Some? && IsPrefix("image/", file.value.mimeType));
      if !rejected {
        imageFile := file;
      }
    }

    /** The FileReader's `onloadend`: the data URL of the staged image becomes its preview. */
    method OnPreviewLoaded(dataUrl: string)
      modifies this`imagePreview
      ensures imagePreview == Some(dataUrl)
    {
      imagePreview := Some(dataUrl);
    }

    /** The cross on the staged image. */
    method ClearStagedImage()
      modifies this`imageFile, this`imagePreview
      ensures imageFile == None && imagePreview == None
    {
      imageFile, imagePreview := None, None;
    }

    /** handleSendMessage with the answers of the image upload (its public URL) and of the
        insert; returns the row it inserted, if it got that far. */
    method HandleSendMessage(upload: Reply<string>, insert: Outcome) returns (sent: Option<OutgoingMessage>)
      modifies this`newMessage, this`imageFile, this`imagePreview, this`sendingMessage
      ensures var ignored := (Trim(old(newMessage)) == "" && old(imageFile).None?) || selected.None? || user.None?;
              && (ignored ==> sent == None && sendingMessage == old(sendingMessage))
              && (!ignored ==> !sendingMessage && (sent.Some? <==> old(imageFile).None? || upload.Ok?))
      ensures sent.Some? ==>
                && sent.value.conversationId == selected.value.id && sent.value.senderId == user.value
                && sent.value.content == OrNull(Trim(old(newMessage)))
                && sent.value.imageUrl == (if old(imageFile).Some? then Some(upload.value) else None)
                && (sent.value.content.Some? || sent.value.imageUrl.Some?)
      ensures if sent.Some? && insert == Done
              then newMessage == "" && imageFile == None && imagePreview == None
              else newMessage == old(newMessage) && imageFile == old(imageFile) && imagePreview == old(imagePreview)
    {
      sent := None;
      var content := Trim(newMessage);
      if (content == "" && imageFile.None?) || selected.None? || user.None? { return; }
      sendingMessage := true;
      var imageUrl: Option<string> := None;
      if imageFile.Some? && upload.Err? {
        sendingMessage := false;
        return;
      }
      if imageFile.Some? {
        imageUrl := Some(upload.value);
      }
      sent := Some(OutgoingMessage(selected.value.id, user.value, OrNull(content), imageUrl));
      if insert == Done {
        newMessage, imageFile, imagePreview := "", None, None;
      }
      sendingMessage := false;
    }

    /** The context menu's edit entry, offered only for a message with text: that text fills
        the buffer. */
    method StartEdit(m: Message)
      requires Truthy(m.content)
      modifies this`editingMessage, this`editingContent
      ensures editingMessage == Some(m) && editingContent == m.content
    {
      editingMessage, editingContent := Some(m), m.content;
    }

    /** Typing into the edit field. */
    method TypeEdit(text: string)
      modifies this`editingContent
      ensures editingContent == Some(text)
    {
      editingContent := Some(text);
    }

    /** The cross of the edit field: leaves the edit buffer's text behind. */
    method CancelEdit()
      modifies this`editingMessage
      ensures editingMessage == None
    {
      editingMessage := None;
    }

    /** handleEditMessage with the answer of the update; returns the update it sent. A null
        buffer makes `trim` throw, which leaves everything as it was. */
    method HandleEditMessage(reply: Outcome) returns (sent: Option<ContentEdit>)
      modifies this`editingMessage, this`editingContent
      ensures var attempted := old(editingMessage).Some? && old(editingContent).Some?
                               && Trim(old(editingContent).value) != "";
              && (attempted <==> sent.Some?)
              && (attempted ==> sent.value == ContentEdit(old(editingMessage).value.id, old(editingContent).value))
              && (if attempted && reply == Done then editingMessage == None && editingContent == Some("")
                  else editingMessage == old(editingMessage) && editingContent == old(editingContent))
    {
      sent := None;
      if editingMessage.None? || editingContent.None? || Trim(editingContent.value) == "" { return; }
      sent := Some(ContentEdit(editingMessage.value.id, editingContent.value));
      if reply == Done {
        editingMessage, editingContent := None, Some("");
      }
    }

    /** The context menu's delete entry stages the message for confirmation. */
    method StageDelete(m: Message)
      modifies this`deletingMessage
      ensures deletingMessage == Some(m)
    {
      deletingMessage := Some(m);
    }

    /** Closing the confirmation dialog. */
    method DismissDelete()
      modifies this`deletingMessage
      ensures deletingMessage == None
    {
      deletingMessage := None;
    }

    /** handleDeleteMessage with the answer of the delete; returns the id it deleted. The staged
        message is cleared whether or not the delete succeeded. */
    method HandleDeleteMessage(reply: Outcome) returns (sent: Option<Id>, failed: bool)
      modifies this`deletingMessage
      ensures old(deletingMessage).None? ==> sent == None && !failed
      ensures old(deletingMessage).Some? ==> sent == Some(old(deletingMessage).value.id) && failed == (reply == Error)
      ensures deletingMessage == None
    {
      sent, failed := None, false;
      if deletingMessage.None? { return; }
      sent := Some(deletingMessage.value.id);
      failed := reply == Error;
      deletingMessage := None;
    }
  }
}
