/**
 * The conversation rows both dashboards read from the store, and the parts
 * of the summary build that ChatPage and ClientDashboard share: the
 * deduplicated other-participant ids, the other participant of one
 * conversation, and the profile lookup through `new Map(profiles)`.
 */
module Conversations {
  import opened Backend
  import Seqs
  import opened Text

  /** The name shown for a participant whose profile has none. */
  const DEFAULT_NAME := "Utilisateur"
  /** The placeholder picture service, keyed by the participant's id. */
  const PLACEHOLDER_AVATAR := "https://i.pravatar.cc/150?u="

  /** The one message the query embeds per conversation (`messages(...)`, newest first, limit 1).
      `time` is its `created_at` as already rendered by `toLocaleTimeString`. */
  datatype LatestMessage = LatestMessage(content: Option<string>, imageUrl: Option<string>, time: string)

  /** A row of `conversations` with its embedded latest message (zero or one). */
  datatype ConversationRow = ConversationRow(id: Id, participantIds: seq<Id>, messages: seq<LatestMessage>)

  /** A row of `get_user_profiles_by_ids`. */
  datatype Profile = Profile(id: Id, name: Option<string>, avatarUrl: Option<string>)

  /** `rows.flatMap(c => c.participant_ids)`. */
  function AllParticipants(rows: seq<ConversationRow>): (r: seq<Id>)
    ensures forall x :: x in r <==> exists c :: c in rows && x in c.participantIds
  {
    if rows == [] then []
    else
      assert forall c :: c in rows[1..] ==> c in rows;
      assert forall c :: c in rows ==> c == rows[0] || c in rows[1..];
      rows[0].participantIds + AllParticipants(rows[1..])
  }

  /** `[...new Set(rows.flatMap(c => c.participant_ids))].filter(id => id !== user)`:
      every participant other than `user`, each once. */
  function OtherParticipantIds(user: Id, rows: seq<ConversationRow>): (r: seq<Id>)
    ensures Seqs.Distinct(r)
    ensures forall x :: x in r <==> x != user && exists c :: c in rows && x in c.participantIds
  {
    var all := Seqs.Dedupe(AllParticipants(rows));
    Seqs.WithoutDistinct(all, (x: Id) => x, user);
    Seqs.Without(all, (x: Id) => x, user)
  }

  /** `participant_ids.find(pId => pId !== user)`: the first participant that is not `user`. */
  function FirstOther(ids: seq<Id>, user: Id): (r: Option<Id>)
    ensures r.Some? ==> r.value in ids && r.value != user
    ensures r.None? <==> forall x :: x in ids ==> x == user
    ensures r.Some? ==> exists i :: 0 <= i < |ids| && ids[i] == r.value && forall j :: 0 <= j < i ==> ids[j] == user
  {
    if ids == [] then None
    else if ids[0] != user then Some(ids[0])
    else
      var r := FirstOther(ids[1..], user);
      assert forall x :: x in ids ==> x == ids[0] || x in ids[1..];
      if r.Some? then
        var i :| 0 <= i < |ids[1..]| && ids[1..][i] == r.value && forall j :: 0 <= j < i ==> ids[1..][j] == user;
        assert ids[i + 1] == r.value && forall j :: 0 <= j < i + 1 ==> ids[j] == user;
        r
      else r
  }

  /** `new Map(profiles.map(p => [p.id, p])).get(id)`: a later row with the same id overrides an
      earlier one, and the `undefined` key finds nothing. */
  function LookupProfile(profiles: seq<Profile>, id: Option<Id>): (r: Option<Profile>)
    ensures r.Some? ==> id.Some? && r.value.id == id.value
    ensures r.None? <==> id.None? || forall p :: p in profiles ==> p.id != id.value
    ensures r.Some? ==> exists k :: 0 <= k < |profiles| && profiles[k] == r.value
                          && forall j :: k < j < |profiles| ==> profiles[j].id != id.value
  {
    if id.None? || profiles == [] then None
    else if profiles[|profiles| - 1].id == id.value then Some(profiles[|profiles| - 1])
    else
      var init := profiles[..|profiles| - 1];
      assert forall p :: p in profiles ==> p in init || p == profiles[|profiles| - 1];
      var r := LookupProfile(init, id);
      if r.Some? then
        var k :| 0 <= k < |init| && init[k] == r.value && forall j :: k < j < |init| ==> init[j].id != id.value;
        assert profiles[k] == r.value;
        r
      else r
  }

  /** `otherUser?.name || 'Utilisateur'`. */
  function DisplayName(p: Option<Profile>): (r: string)
    ensures r != ""
    ensures p.Some? && Truthy(p.value.name) ==> r == p.value.name.value
    ensures !(p.Some? && Truthy(p.value.name)) ==> r == DEFAULT_NAME
  {
    if p.Some? && Truthy(p.value.name) then p.value.name.value else DEFAULT_NAME
  }

  /** `otherUser?.avatar_url || \`https://i.pravatar.cc/150?u=${otherParticipantId}\``
      (an undefined id is rendered as the text "undefined"). */
  function AvatarUrl(p: Option<Profile>, other: Option<Id>): (r: string)
    ensures r != ""
    ensures p.Some? && Truthy(p.value.avatarUrl) ==> r == p.value.avatarUrl.value
    ensures !(p.Some? && Truthy(p.value.avatarUrl)) && other.Some? ==> r == PLACEHOLDER_AVATAR + other.value
    ensures !(p.Some? && Truthy(p.value.avatarUrl)) && other.None? ==> r == PLACEHOLDER_AVATAR + "undefined"
  {
    if p.Some? && Truthy(p.value.avatarUrl) then p.value.avatarUrl.value
    else PLACEHOLDER_AVATAR + (if other.Some? then other.value else "undefined")
  }

  /** The display time of a row: that of its latest message, or '' when it has none. */
  function Timestamp(c: ConversationRow): (r: string)
    ensures c.messages == [] ==> r == ""
    ensures c.messages != [] ==> r == c.messages[0].time
  {
    if c.messages == [] then "" else c.messages[0].time
  }
}
