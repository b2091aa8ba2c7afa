/**
 * The customer's dashboard: the conversation summaries (the same participant
 * and profile handling as the chat page, with a plainer preview), the
 * favourite rows, and the profile form with its avatar-URL rule.
 */
module ClientDashboard {
  import opened Backend
  import opened Text
  import opened Conversations
  import ChatPage
  import AuthContext

  /** One entry of `formattedConversations`. */
  datatype ClientSummary = ClientSummary(id: Id, vendor: string, avatar: string, lastMessage: string, timestamp: string)

  /** `convo.messages[0]?.content || 'Aucun message'`: no 'Photo' case here. */
  function LastMessage(c: ConversationRow): (r: string)
    ensures r != ""
    ensures c.messages != [] && Truthy(c.messages[0].content) ==> r == c.messages[0].content.value
    ensures !(c.messages != [] && Truthy(c.messages[0].content)) ==> r == "Aucun message"
  {
    if c.messages != [] && Truthy(c.messages[0].content) then c.messages[0].content.value else "Aucun message"
  }

  /** The two previews agree on a conversation without messages and on a text message
      without an image. */
  lemma PreviewAgreesWithChatPage(c: ConversationRow)
    requires c.messages == [] || (!Truthy(c.messages[0].imageUrl) && Truthy(c.messages[0].content))
    ensures ChatPage.Preview(c) == Some(LastMessage(c))
  {
  }

  /** They differ on a message with an image: the chat page says 'Photo', the dashboard shows
      the text (or 'Aucun message' when there is none). */
  lemma PhotoOnlyOnChatPage(c: ConversationRow)
    requires c.messages != [] && Truthy(c.messages[0].imageUrl)
    ensures ChatPage.Preview(c) == Some("Photo")
    ensures LastMessage(c) != "Photo" || c.messages[0].content == Some("Photo")
  {
  }

  function SummaryOf(user: Id, profiles: seq<Profile>, c: ConversationRow): ClientSummary {
    var other := FirstOther(c.participantIds, user);
    var profile := LookupProfile(profiles, other);
    ClientSummary(c.id, DisplayName(profile), AvatarUrl(profile, other), LastMessage(c), Timestamp(c))
  }

  /** The summaries in query order (the date sort is not modelled). */
  function Summaries(user: Id, profiles: seq<Profile>, rows: seq<ConversationRow>): (r: seq<ClientSummary>)
    ensures |r| == |rows|
    ensures forall i :: 0 <= i < |rows| ==>
              r[i].id == rows[i].id && r[i].lastMessage == LastMessage(rows[i]) && r[i].timestamp == Timestamp(rows[i])
  {
    if rows == [] then [] else [SummaryOf(user, profiles, rows[0])] + Summaries(user, profiles, rows[1..])
  }

  /** The dashboard names and pictures each conversation's other participant exactly as the
      chat page does. */
  lemma {:induction false} SameCounterpartAsChatPage(user: Id, profiles: seq<Profile>, rows: seq<ConversationRow>)
    ensures forall i :: 0 <= i < |rows| ==>
              && Summaries(user, profiles, rows)[i].vendor == ChatPage.SummarizeAll(user, profiles, rows)[i].name
              && Summaries(user, profiles, rows)[i].avatar == ChatPage.SummarizeAll(user, profiles, rows)[i].avatar
  {
    if rows != [] {
      SameCounterpartAsChatPage(user, profiles, rows[1..]);
      var r, s := Summaries(user, profiles, rows), ChatPage.SummarizeAll(user, profiles, rows);
      assert r[1..] == Summaries(user, profiles, rows[1..]);
      forall i | 0 <= i < |rows| ensures r[i].vendor == s[i].name && r[i].avatar == s[i].avatar {
        if i > 0 {
          assert r[i] == Summaries(user, profiles, rows[1..])[i - 1];
        }
      }
    }
  }

  /** A favourite row with its product, as the dashboard lists it. */
  datatype FavoriteRow = FavoriteRow(id: Id, productName: string, vendorName: string)

  datatype File = File(name: string)

  /** The metadata handleProfileUpdate sends to the auth service. */
  datatype MetadataUpdate = MetadataUpdate(name: string, avatarUrl: Option<string>)

  /** The avatar URL handleProfileUpdate sends: the current one unless a new file was chosen,
      then the uploaded file's public URL; none at all (the update is abandoned) when that
      upload fails. */
  function ChosenAvatar(current: Option<string>, file: Option<File>, upload: Reply<string>): (r: Option<Option<string>>)
    ensures file.None? ==> r == Some(current)
    ensures file.Some? ==> (r.None? <==> upload.Err?)
    ensures file.Some? && upload.Ok? ==> r == Some(Some(upload.value))
  {
    if file.None? then Some(current)
    else if upload.Err? then None
    else Some(Some(upload.value))
  }

  /** `value || ''`. */
  function OrEmpty(o: Option<string>): (r: string)
    ensures Truthy(o) ==> r == o.value
    ensures !Truthy(o) ==> r == ""
  {
    if Truthy(o) then o.value else ""
  }

  class ClientView {
    const user: Option<AuthContext.User>
    var loading: bool
    var conversations: seq<ClientSummary>
    var favorites: seq<FavoriteRow>
    var profileName: string
    var avatarFile: Option<File>
    var avatarPreview: string
    var profileLoading: bool

    constructor (user: Option<AuthContext.User>)
      ensures this.user == user && loading && conversations == [] && favorites == []
      ensures profileName == "" && avatarFile == None && avatarPreview == "" && !profileLoading
    {
      this.user := user;
      loading, conversations, favorites := true, [], [];
      profileName, avatarFile, avatarPreview, profileLoading := "", None, "", false;
    }

    /** The effect that fills the profile form from the user's metadata. */
    method FillProfileForm()
      modifies this`profileName, this`avatarPreview
      ensures user.Some? ==> profileName == OrEmpty(user.value.metadata.name)
                             && avatarPreview == OrEmpty(user.value.metadata.avatarUrl)
      ensures user.None? ==> profileName == old(profileName) && avatarPreview == old(avatarPreview)
    {
      if user.Some? {
        profileName := OrEmpty(user.value.metadata.name);
        avatarPreview := OrEmpty(user.value.metadata.avatarUrl);
      }
    }

    /** fetchClientData with the answers of the conversations query, of the profile lookup
        (only sent when there are other participants) and of the favourites query. Without
        a user nothing changes. */
    method FetchClientData(convos: Reply<seq<ConversationRow>>, profiles: Reply<seq<Profile>>,
                           favs: Reply<seq<FavoriteRow>>) returns (profilesQueried: bool)
      modifies this`loading, this`conversations, this`favorites
      ensures profilesQueried <==> user.Some? && convos.Ok? && OtherParticipantIds(user.value.id, convos.value) != []
      ensures conversations == if profilesQueried && profiles.Ok? then Summaries(user.value.id, profiles.value, convos.value)
                               else old(conversations)
      ensures favorites == if user.Some? && favs.Ok? then favs.value else old(favorites)
      ensures loading == if user.None? then old(loading) else false
    {
      profilesQueried := false;
      if user.None? {
        return;
      }
      loading := true;
      if convos.Ok? {
        var others := OtherParticipantIds(user.value.id, convos.value);
        if |others| > 0 {
          profilesQueried := true;
          if profiles.Ok? {
            conversations := Summaries(user.value.id, profiles.value, convos.value);
          }
        }
      }
      if favs.Ok? {
        favorites := favs.value;
      }
      loading := false;
    }

    /** handleAvatarChange: stages the first picked file, if any. */
    method HandleAvatarChange(file: Option<File>)
      modifies this`avatarFile
      ensures avatarFile == if file.Some? then file else old(avatarFile)
    {
      if file.Some? {
        avatarFile := file;
      }
    }

    /** The reader's `onloadend`: the staged file's data URL becomes the preview. */
    method OnAvatarLoaded(dataUrl: string)
      modifies this`avatarPreview
      ensures avatarPreview == dataUrl
    {
      avatarPreview := dataUrl;
    }

    /** handleProfileUpdate with the answers of the avatar upload (only sent with a staged
        file) and of the metadata update; returns what was sent and whether the user was
        refreshed. The form is only shown to a signed-in user. */
    method HandleProfileUpdate(upload: Reply<string>, update: Outcome) returns (sent: Option<MetadataUpdate>, refreshed: bool)
      requires user.Some?
      modifies this`profileLoading
      ensures var chosen := ChosenAvatar(user.value.metadata.avatarUrl, avatarFile, upload);
              && (sent.None? <==> chosen.None?)
              && (sent.Some? ==> sent.value == MetadataUpdate(profileName, chosen.value))
      ensures refreshed <==> sent.Some? && update == Done
      ensures !profileLoading
    {
      profileLoading := true;
      sent, refreshed := None, false;
      var avatarUrl := user.value.metadata.avatarUrl;
      if avatarFile.Some? {
        if upload.Err? {
          profileLoading := false;
          return;
        }
        avatarUrl := Some(upload.value);
      }
      sent := Some(MetadataUpdate(profileName, avatarUrl));
      refreshed := update == Done;
      profileLoading := false;
    }
  }
}
