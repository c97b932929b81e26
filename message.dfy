/**
 * Message-level declarations: the `MessageFlags` bit set, the `repr(u8)`
 * discriminant tables, `Nounce`, and the allowed-mention record with its wire names.
 * The structural message, embed and reaction records are not part of this model.
 */
module Messages {
  import opened Wrappers
  import opened Numeric
  import opened JsonValue
  import opened Bitflags
  import Snowflakes

  // ---------------------------------------------------------------- MessageFlags

  /** The declared flags of `MessageFlags`. */
  datatype MessageFlag =
    | Crossposted
    | IsCrosspost
    | SuppressEmbeds
    | SourceMessageDeleted
    | Urgent
    | HasThread
    | Ephemeral
    | Loading
    | FailedToMentionSomeRolesInThread
    | SuppressNotifications
    | IsVoiceMessage
    | HasSnapshot

  /** The value of each declared flag. */
  function Flag(f: MessageFlag): bv64 {
    match f
    case Crossposted => 1 << 0
    case IsCrosspost => 1 << 1
    case SuppressEmbeds => 1 << 2
    case SourceMessageDeleted => 1 << 3
    case Urgent => 1 << 4
    case HasThread => 1 << 5
    case Ephemeral => 1 << 6
    case Loading => 1 << 7
    case FailedToMentionSomeRolesInThread => 1 << 8
    case SuppressNotifications => 1 << 12
    case IsVoiceMessage => 1 << 13
    case HasSnapshot => 1 << 14
  }

  /** `MessageFlags::all()` */
  const MESSAGE_FLAGS_ALL: bv64 :=
    Flag(Crossposted)
    | Flag(IsCrosspost)
    | Flag(SuppressEmbeds)
    | Flag(SourceMessageDeleted)
    | Flag(Urgent)
    | Flag(HasThread)
    | Flag(Ephemeral)
    | Flag(Loading)
    | Flag(FailedToMentionSomeRolesInThread)
    | Flag(SuppressNotifications)
    | Flag(IsVoiceMessage)
    | Flag(HasSnapshot)

  /** Bits 0-8 and 12-14 are declared; decoding drops bits 9-11 and everything from bit 15 up. */
  lemma MessageFlagsMask(v: bv64)
    ensures MESSAGE_FLAGS_ALL == 0x71FF
    ensures Decode64(v, MESSAGE_FLAGS_ALL) & 0xFFFF_FFFF_FFFF_8E00 == 0
    ensures Decode64(v, MESSAGE_FLAGS_ALL) == v & 0x71FF
  {
  }

  // ---------------------------------------------------------------- discriminant tables

  /** `MessageType` (`repr(u8)`): the kind of a message; codes 13, 30, 33-35, 40-43 and 45 have no variant. */
  datatype MessageType =
    | Default
    | RecipientAdd
    | RecipientRemove
    | Call
    | ChannelNameChange
    | ChannelIconChange
    | ChannelPinnedMessage
    | UserJoin
    | GuildBoost
    | GuildBoostTier1
    | GuildBoostTier2
    | GuildBoostTier3
    | ChannelFollowAdd
    | GuildDiscoveryDisqualified
    | GuildDiscoveryRequalified
    | GuildDiscoveryGracePeriodInitialWarning
    | GuildDiscoveryGracePeriodFinalWarning
    | ThreadCreated
    | Reply
    | ChatInputCommand
    | ThreadStarterMessage
    | GuildInviteReminder
    | ContextMenuCommand
    | AutoModerationAction
    | RoleSubscriptionPurchase
    | InteractionPremiumUpsell
    | StageStart
    | StageEnd
    | StageSpeaker
    | StageTopic
    | GuildApplicationPremiumSubscription
    | GuildIncidentAlertModeEnabled
    | GuildIncidentAlertModeDisabled
    | GuildIncidentReportRaid
    | GuildIncidentReportFalseAlarm
    | PurchaseNotification
    | PollResult

  /** The discriminant written on the wire. */
  function MessageTypeCode(t: MessageType): (r: U8)
    ensures r in MESSAGE_TYPE_CODES
  {
    match t
    case Default => 0
    case RecipientAdd => 1
    case RecipientRemove => 2
    case Call => 3
    case ChannelNameChange => 4
    case ChannelIconChange => 5
    case ChannelPinnedMessage => 6
    case UserJoin => 7
    case GuildBoost => 8
    case GuildBoostTier1 => 9
    case GuildBoostTier2 => 10
    case GuildBoostTier3 => 11
    case ChannelFollowAdd => 12
    case GuildDiscoveryDisqualified => 14
    case GuildDiscoveryRequalified => 15
    case GuildDiscoveryGracePeriodInitialWarning => 16
    case GuildDiscoveryGracePeriodFinalWarning => 17
    case ThreadCreated => 18
    case Reply => 19
    case ChatInputCommand => 20
    case ThreadStarterMessage => 21
    case GuildInviteReminder => 22
    case ContextMenuCommand => 23
    case AutoModerationAction => 24
    case RoleSubscriptionPurchase => 25
    case InteractionPremiumUpsell => 26
    case StageStart => 27
    case StageEnd => 28
    case StageSpeaker => 29
    case StageTopic => 31
    case GuildApplicationPremiumSubscription => 32
    case GuildIncidentAlertModeEnabled => 36
    case GuildIncidentAlertModeDisabled => 37
    case GuildIncidentReportRaid => 38
    case GuildIncidentReportFalseAlarm => 39
    case PurchaseNotification => 44
    case PollResult => 46
  }

  /** Reading a discriminant: `None` for a value with no variant. */
  function MessageTypeFromCode(n: int): (r: Option<MessageType>)
  {
    match n
    case 0 => Some(MessageType.Default)
    case 1 => Some(MessageType.RecipientAdd)
    case 2 => Some(MessageType.RecipientRemove)
    case 3 => Some(MessageType.Call)
    case 4 => Some(MessageType.ChannelNameChange)
    case 5 => Some(MessageType.ChannelIconChange)
    case 6 => Some(MessageType.ChannelPinnedMessage)
    case 7 => Some(MessageType.UserJoin)
    case 8 => Some(MessageType.GuildBoost)
    case 9 => Some(MessageType.GuildBoostTier1)
    case 10 => Some(MessageType.GuildBoostTier2)
    case 11 => Some(MessageType.GuildBoostTier3)
    case 12 => Some(MessageType.ChannelFollowAdd)
    case 14 => Some(MessageType.GuildDiscoveryDisqualified)
    case 15 => Some(MessageType.GuildDiscoveryRequalified)
    case 16 => Some(MessageType.GuildDiscoveryGracePeriodInitialWarning)
    case 17 => Some(MessageType.GuildDiscoveryGracePeriodFinalWarning)
    case 18 => Some(MessageType.ThreadCreated)
    case 19 => Some(MessageType.Reply)
    case 20 => Some(MessageType.ChatInputCommand)
    case 21 => Some(MessageType.ThreadStarterMessage)
    case 22 => Some(MessageType.GuildInviteReminder)
    case 23 => Some(MessageType.ContextMenuCommand)
    case 24 => Some(MessageType.AutoModerationAction)
    case 25 => Some(MessageType.RoleSubscriptionPurchase)
    case 26 => Some(MessageType.InteractionPremiumUpsell)
    case 27 => Some(MessageType.StageStart)
    case 28 => Some(MessageType.StageEnd)
    case 29 => Some(MessageType.StageSpeaker)
    case 31 => Some(MessageType.StageTopic)
    case 32 => Some(MessageType.GuildApplicationPremiumSubscription)
    case 36 => Some(MessageType.GuildIncidentAlertModeEnabled)
    case 37 => Some(MessageType.GuildIncidentAlertModeDisabled)
    case 38 => Some(MessageType.GuildIncidentReportRaid)
    case 39 => Some(MessageType.GuildIncidentReportFalseAlarm)
    case 44 => Some(MessageType.PurchaseNotification)
    case 46 => Some(MessageType.PollResult)
    case _ => None
  }

  const MESSAGE_TYPE_CODES: set<int> := {0, 1, 2, 3, 4, 5, 6, 7, 8, 9, 10, 11, 12, 14, 15, 16, 17, 18, 19, 20, 21, 22, 23, 24, 25, 26, 27, 28, 29, 31, 32, 36, 37, 38, 39, 44, 46}

  /** Every variant's code reads back as that variant, so distinct variants have distinct codes. */
  lemma MessageTypeCodes(t: MessageType)
    ensures MessageTypeFromCode(MessageTypeCode(t)) == Some(t)
    ensures MessageTypeCode(t) in MESSAGE_TYPE_CODES
  {
  }

  /** Exactly the listed codes decode; the gaps do not. */
  lemma MessageTypeRange(n: int)
    ensures MessageTypeFromCode(n).Some? <==> n in MESSAGE_TYPE_CODES
    ensures MessageTypeFromCode(n).Some? ==> MessageTypeCode(MessageTypeFromCode(n).value) == n
    ensures n in {13, 30, 33, 34, 35, 40, 41, 42, 43, 45} ==> MessageTypeFromCode(n) == None
  {
  }

  /** `MessageActivityType` (`repr(u8)`). */
  datatype MessageActivityType =
    | Join
    | Spectate
    | Listen
    | JoinRequest

  /** The discriminant written on the wire. */
  function MessageActivityTypeCode(t: MessageActivityType): (r: U8)
    ensures MessageActivityTypeFromCode(r) == Some(t)
  {
    match t
    case Join => 1
    case Spectate => 2
    case Listen => 3
    case JoinRequest => 5
  }

  /** Reading a discriminant: `None` for a value with no variant. */
  function MessageActivityTypeFromCode(n: int): (r: Option<MessageActivityType>)
    ensures r.Some? <==> n in MESSAGE_ACTIVITY_TYPE_CODES
  {
    match n
    case 1 => Some(Join)
    case 2 => Some(Spectate)
    case 3 => Some(Listen)
    case 5 => Some(JoinRequest)
    case _ => None
  }

  const MESSAGE_ACTIVITY_TYPE_CODES: set<int> := {1, 2, 3, 5}

  lemma MessageActivityTypeCodes(t: MessageActivityType, n: int)
    ensures MessageActivityTypeFromCode(MessageActivityTypeCode(t)) == Some(t)
    ensures MessageActivityTypeFromCode(n).Some? <==> n in {1, 2, 3, 5}
    ensures MessageActivityTypeFromCode(n).Some? ==> MessageActivityTypeCode(MessageActivityTypeFromCode(n).value) == n
  {
  }

  /** `MessageReferenceType` (`repr(u8)`): a reply (`Default`) or a forward. */
  datatype MessageReferenceType =
    | Default
    | Forward

  /** The discriminant written on the wire. */
  function MessageReferenceTypeCode(t: MessageReferenceType): (r: U8)
    ensures MessageReferenceTypeFromCode(r) == Some(t)
  {
    match t
    case Default => 0
    case Forward => 1
  }

  /** Reading a discriminant: `None` for a value with no variant. */
  function MessageReferenceTypeFromCode(n: int): (r: Option<MessageReferenceType>)
    ensures r.Some? <==> n in MESSAGE_REFERENCE_TYPE_CODES
  {
    match n
    case 0 => Some(MessageReferenceType.Default)
    case 1 => Some(MessageReferenceType.Forward)
    case _ => None
  }

  const MESSAGE_REFERENCE_TYPE_CODES: set<int> := {0, 1}

  lemma MessageReferenceTypeCodes(t: MessageReferenceType, n: int)
    ensures MessageReferenceTypeFromCode(MessageReferenceTypeCode(t)) == Some(t)
    ensures MessageReferenceTypeFromCode(n).Some? <==> n == 0 || n == 1
    ensures MessageReferenceTypeFromCode(n).Some? ==> MessageReferenceTypeCode(MessageReferenceTypeFromCode(n).value) == n
  {
  }

  // ---------------------------------------------------------------- Nounce

  /** `Nounce` (untagged): a nonce is either a string or a `u64`. */
  datatype Nounce = Str(text: string) | Integer(number: U64)

  /** Untagged serialisation writes the inner value alone. */
  function NounceToJson(n: Nounce): (j: Json)
    ensures j.Str? <==> n.Str?
  {
    match n
    case Str(s) => Json.Str(s)
    case Integer(k) => Number(k)
  }

  /** Untagged deserialisation tries `Str`, then `Integer`; anything else is an error. */
  function NounceFromJson(j: Json): (r: Option<Nounce>)
    ensures r.Some? <==> j.Str? || AsU64(j).Some?
  {
    if j.Str? then Some(Nounce.Str(j.s))
    else if j.Number? && 0 <= j.n < TWO_64 then Some(Integer(j.n))
    else None
  }

  lemma NounceRoundTrip(n: Nounce)
    ensures NounceFromJson(NounceToJson(n)) == Some(n)
  {
  }

  // ---------------------------------------------------------------- allowed mentions

  /** `AllowedMentionType`: which mention kinds a message may ping. */
  datatype AllowedMentionType = Roles | Users | Everyone

  /** The serde names `roles`, `users` and `everyone`. */
  function WireName(t: AllowedMentionType): (r: string)
    ensures r in {"roles", "users", "everyone"}
  {
    match t
    case Roles => "roles"
    case Users => "users"
    case Everyone => "everyone"
  }

  function FromWireName(s: string): (r: Option<AllowedMentionType>)
    ensures r.Some? ==> WireName(r.value) == s
  {
    match s
    case "roles" => Some(Roles)
    case "users" => Some(Users)
    case "everyone" => Some(Everyone)
    case _ => None
  }

  /** The wire names are exactly the three names, each reading back as its variant. */
  lemma WireNameRoundTrip(t: AllowedMentionType, s: string)
    ensures FromWireName(WireName(t)) == Some(t)
    ensures FromWireName(s).Some? <==> s in {"roles", "users", "everyone"}
  {
  }

  /**
   * `AllowedMention`: the kinds to parse, and optional explicit role and user
   * id lists (written as snowflakes; their wire form is the decimal string).
   */
  datatype AllowedMention = AllowedMention(
    parse: seq<AllowedMentionType>,
    roles: Option<seq<Snowflakes.Snowflake>>,
    users: Option<seq<Snowflakes.Snowflake>>)

  /** An id list: an array of the ids' decimal strings, in order. */
  function IdsToJson(ids: seq<Snowflakes.Snowflake>): (j: Json)
    ensures j.Array? && |j.items| == |ids|
    ensures forall i :: 0 <= i < |ids| ==>
      j.items[i].Str? && IsCanonical(j.items[i].s) && ParseU64(j.items[i].s) == Some(ids[i].id)
  {
    Array(seq(|ids|, i requires 0 <= i < |ids| => Json.Str(Snowflakes.Serialize(ids[i]))))
  }

  /** A `parse` list: an array of the kinds' wire names, in order. */
  function KindsToJson(p: seq<AllowedMentionType>): (j: Json)
    ensures j.Array? && |j.items| == |p|
    ensures forall i :: 0 <= i < |p| ==> j.items[i].Str? && FromWireName(j.items[i].s) == Some(p[i])
  {
    Array(seq(|p|, i requires 0 <= i < |p| => Json.Str(WireName(p[i]))))
  }

  /** Serialisation: `parse` always; `roles` and `users` only when present (`skip_serializing_if`). */
  function AllowedMentionToJson(a: AllowedMention): (j: Json)
    ensures j.Object? && j.fields.Keys <= {"parse", "roles", "users"}
    ensures "parse" in j.fields && j.fields["parse"] == KindsToJson(a.parse)
    ensures "roles" in j.fields <==> a.roles.Some?
    ensures a.roles.Some? ==> j.fields["roles"] == IdsToJson(a.roles.value)
    ensures "users" in j.fields <==> a.users.Some?
    ensures a.users.Some? ==> j.fields["users"] == IdsToJson(a.users.value)
  {
    var m := map["parse" := KindsToJson(a.parse)];
    var m := if a.roles.Some? then m["roles" := IdsToJson(a.roles.value)] else m;
    var m := if a.users.Some? then m["users" := IdsToJson(a.users.value)] else m;
    Object(m)
  }

  /** Reading an id list: an array whose every element is a string holding a `u64`. */
  function IdsFromJson(j: Json): (r: Option<seq<Snowflakes.Snowflake>>)
    ensures r.Some? <==> j.Array? && forall i :: 0 <= i < |j.items| ==> j.items[i].Str? && ParseU64(j.items[i].s).Some?
    ensures r.Some? ==> |r.value| == |j.items|
    ensures r.Some? ==> forall i :: 0 <= i < |j.items| ==> ParseU64(j.items[i].s) == Some(r.value[i].id)
  {
    if j.Array? && forall i :: 0 <= i < |j.items| ==> j.items[i].Str? && ParseU64(j.items[i].s).Some? then
      Some(seq(|j.items|, i requires 0 <= i < |j.items| && j.items[i].Str? && ParseU64(j.items[i].s).Some?
                            => Snowflakes.Deserialize(j.items[i].s)))
    else None
  }

  /**
   * Reading one kind of a `parse` list: the unit variant written as its bare
   * name, or in serde's map form for enums, the name mapped to `null`.
   */
  function KindFromJson(e: Json): (r: Option<AllowedMentionType>)
    ensures e.Str? ==> r == FromWireName(e.s)
    ensures r.Some? ==> e == Json.Str(WireName(r.value)) || e == Object(map[WireName(r.value) := Null])
  {
    if e.Str? then FromWireName(e.s)
    else if e == Object(map["roles" := Null]) then Some(Roles)
    else if e == Object(map["users" := Null]) then Some(Users)
    else if e == Object(map["everyone" := Null]) then Some(Everyone)
    else None
  }

  /** Reading a `parse` list: an array whose every element reads as a kind. */
  function KindsFromJson(j: Json): (r: Option<seq<AllowedMentionType>>)
    ensures r.Some? <==> j.Array? && forall i :: 0 <= i < |j.items| ==> KindFromJson(j.items[i]).Some?
    ensures r.Some? ==> |r.value| == |j.items|
    ensures r.Some? ==> forall i :: 0 <= i < |j.items| ==> KindFromJson(j.items[i]) == Some(r.value[i])
  {
    if j.Array? && forall i :: 0 <= i < |j.items| ==> KindFromJson(j.items[i]).Some? then
      Some(seq(|j.items|, i requires 0 <= i < |j.items| && KindFromJson(j.items[i]).Some?
                            => KindFromJson(j.items[i]).value))
    else None
  }

  /** serde's sequence form of `AllowedMention` lists its three fields in declaration order. */
  const ALLOWED_MENTION_FIELDS: nat := 3

  /**
   * A field of the record: the member `key` of the map form, or the element at
   * `index` of the sequence form.
   */
  function Member(j: Json, key: string, index: nat): (r: Option<Json>)
    ensures j.Object? ==> r == Get(j, key)
    ensures j.Array? ==> (r.Some? <==> index < |j.items|)
    ensures j.Array? && r.Some? ==> r.value == j.items[index]
  {
    if j.Object? then Get(j, key)
    else if j.Array? && index < |j.items| then Some(j.items[index])
    else None
  }

  /**
   * An optional id-list field: absent or `null` reads as `None`; otherwise it
   * must be an id list. The outer `None` is a decoding error.
   */
  function OptionalIdsFromJson(v: Option<Json>): (r: Option<Option<seq<Snowflakes.Snowflake>>>)
    ensures (v.None? || v == Some(Null)) ==> r == Some(None)
    ensures v.Some? && v.value != Null ==> r.Some? == IdsFromJson(v.value).Some?
    ensures v.Some? && v.value != Null && r.Some? ==> r.value == IdsFromJson(v.value)
  {
    if v.None? || v.value == Null then Some(None)
    else if IdsFromJson(v.value).Some? then Some(IdsFromJson(v.value))
    else None
  }

  /** The record is in one of serde's two forms and each of its fields reads. */
  predicate IsAllowedMention(j: Json) {
    && (j.Object? || (j.Array? && |j.items| == ALLOWED_MENTION_FIELDS))
    && Member(j, "parse", 0).Some? && KindsFromJson(Member(j, "parse", 0).value).Some?
    && OptionalIdsFromJson(Member(j, "roles", 1)).Some?
    && OptionalIdsFromJson(Member(j, "users", 2)).Some?
  }

  /**
   * Derived `Deserialize`: the map form, an object with a `parse` list and
   * optional `roles` and `users` id lists (other members are ignored), or the
   * sequence form `[parse, roles, users]`.
   */
  function AllowedMentionFromJson(j: Json): (r: Option<AllowedMention>)
    ensures r.Some? <==> IsAllowedMention(j)
    ensures r.Some? ==> KindsFromJson(Member(j, "parse", 0).value) == Some(r.value.parse)
    ensures r.Some? ==> OptionalIdsFromJson(Member(j, "roles", 1)) == Some(r.value.roles)
    ensures r.Some? ==> OptionalIdsFromJson(Member(j, "users", 2)) == Some(r.value.users)
  {
    if !(j.Object? || (j.Array? && |j.items| == ALLOWED_MENTION_FIELDS)) then None
    else
      var parse := Member(j, "parse", 0);
      var roles := OptionalIdsFromJson(Member(j, "roles", 1));
      var users := OptionalIdsFromJson(Member(j, "users", 2));
      if parse.None? || KindsFromJson(parse.value).None? || roles.None? || users.None? then None
      else Some(AllowedMention(KindsFromJson(parse.value).value, roles.value, users.value))
  }

  /** Both of serde's forms are read: a kind as `{"roles": null}`, a record as `[parse, roles, users]`. */
  lemma AllowedMentionForms()
    ensures KindFromJson(Object(map["roles" := Null])) == Some(Roles)
    ensures KindFromJson(Object(map["roles" := Json.Str("")])) == None
    ensures AllowedMentionFromJson(Array([Array([Json.Str("roles")]), Null, Null])) == Some(AllowedMention([Roles], None, None))
    ensures AllowedMentionFromJson(Array([Array([Json.Str("roles")]), Null])) == None
  {
    var m := map["roles" := Json.Str("")];
    assert m != map["roles" := Null] by { assert m["roles"] != Null; }
    assert "users" !in m && "everyone" !in m;
    var parse := Array([Json.Str("roles")]);
    assert KindFromJson(parse.items[0]) == Some(Roles);
    var kinds := KindsFromJson(parse);
    assert kinds.Some? && |kinds.value| == 1 && Some(kinds.value[0]) == KindFromJson(parse.items[0]);
    assert kinds.value == [Roles];
  }

  /** Reading back a written id list gives the same ids. */
  lemma IdsRoundTrip(ids: seq<Snowflakes.Snowflake>)
    ensures IdsFromJson(IdsToJson(ids)) == Some(ids)
  {
    var j := IdsToJson(ids);
    assert forall i :: 0 <= i < |j.items| ==> j.items[i].Str? && ParseU64(j.items[i].s).Some?;
    var r := IdsFromJson(j).value;
    forall i | 0 <= i < |ids|
      ensures r[i] == ids[i]
    {
      assert Some(r[i].id) == ParseU64(j.items[i].s) == Some(ids[i].id);
    }
    assert r == ids;
  }

  /** Reading back a written `parse` list gives the same kinds in the same order. */
  lemma KindsRoundTrip(p: seq<AllowedMentionType>)
    ensures KindsFromJson(KindsToJson(p)) == Some(p)
  {
    var j := KindsToJson(p);
    assert forall i :: 0 <= i < |j.items| ==> KindFromJson(j.items[i]) == FromWireName(j.items[i].s);
    var r := KindsFromJson(j).value;
    forall i | 0 <= i < |p|
      ensures r[i] == p[i]
    {
      assert Some(r[i]) == KindFromJson(j.items[i]) == Some(p[i]);
    }
    assert r == p;
  }

  /** Serialising an allowed-mention record and deserialising it gives the record back. */
  lemma AllowedMentionRoundTrip(a: AllowedMention)
    ensures AllowedMentionFromJson(AllowedMentionToJson(a)) == Some(a)
  {
    KindsRoundTrip(a.parse);
    if a.roles.Some? {
      IdsRoundTrip(a.roles.value);
    }
    if a.users.Some? {
      IdsRoundTrip(a.users.value);
    }
  }

  /** `MessageReference`: which message a reply or forward points at. */
  datatype MessageReference = MessageReference(
    kind: MessageReferenceType,
    messageId: Option<string>,
    channelId: Option<string>,
    guildId: Option<string>,
    failIfNotExists: Option<bool>)

  /** An embed, kept as the JSON object it is sent as; its fields are not modelled. */
  datatype Embed = Embed(body: Json)
}
