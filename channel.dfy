/**
 * Channels as the API returns them: the untyped `Channel` record, the typed
 * `TextChannel` view, the `ChannelType` flag set and the `Permissions` flag set,
 * whose wire form is the decimal string of its bits.
 */
module Channels {
  import opened Wrappers
  import opened Numeric
  import opened Bitflags
  import HttpMessages

  /** `OverwriteType`, written as its `u8` discriminant. */
  datatype OverwriteType = Role | Member

  function OverwriteTypeCode(t: OverwriteType): (r: U8)
    ensures OverwriteTypeFromCode(r) == Some(t)
  {
    match t
    case Role => 0
    case Member => 1
  }

  /** Reading a discriminant: `None` for a value with no variant. */
  function OverwriteTypeFromCode(n: int): (r: Option<OverwriteType>)
    ensures r.Some? <==> n in {0, 1}
  {
    if n == 0 then Some(Role) else if n == 1 then Some(Member) else None
  }

  /** The discriminant table is a bijection between the variants and {0, 1}. */
  lemma OverwriteTypeCodes(t: OverwriteType, n: int)
    ensures OverwriteTypeFromCode(OverwriteTypeCode(t)) == Some(t)
    ensures OverwriteTypeFromCode(n) == Some(t) ==> OverwriteTypeCode(t) == n
  {
  }

  /** `VideoQualityMode`: `AUTO = 1`, `FULL = 2` (720p). */
  datatype VideoQualityMode = Auto | Full

  function VideoQualityModeCode(m: VideoQualityMode): (r: U8)
    ensures VideoQualityModeFromCode(r) == Some(m)
  {
    match m
    case Auto => 1
    case Full => 2
  }

  function VideoQualityModeFromCode(n: int): (r: Option<VideoQualityMode>)
    ensures r.Some? <==> n in {1, 2}
  {
    if n == 1 then Some(Auto) else if n == 2 then Some(Full) else None
  }

  /** The discriminant table is a bijection between the variants and {1, 2}; 0 has no variant. */
  lemma VideoQualityModeCodes(m: VideoQualityMode, n: int)
    ensures VideoQualityModeFromCode(VideoQualityModeCode(m)) == Some(m)
    ensures VideoQualityModeFromCode(n) == Some(m) ==> VideoQualityModeCode(m) == n
  {
  }

  /** A permission overwrite on a channel for one role or member. */
  datatype Overwrite = Overwrite(id: string, kind: OverwriteType, allow: Flags64, deny: Flags64)

  /**
   * The untyped channel record. The client handle is not part of the wire form;
   * `attach` installs it. `usize` counts are unbounded naturals here.
   */
  datatype Channel = Channel(
    http: Option<HttpMessages.HttpClient>,
    id: string,
    channelType: Flags64,
    guildId: Option<string>,
    position: Option<U16>,
    permissionOverwrites: Option<seq<Overwrite>>,
    name: Option<string>,
    topic: Option<string>,
    nsfw: Option<bool>,
    lastMessageId: Option<string>,
    bitrate: Option<nat>,
    userLimit: Option<nat>,
    rateLimitPerUser: Option<nat>,
    icon: Option<string>,
    ownerId: Option<string>,
    applicationId: Option<string>,
    managed: Option<bool>,
    parentId: Option<string>,
    lastPinTimestamp: Option<string>,
    rtcRegion: Option<string>,
    videoQualityMode: Option<VideoQualityMode>,
    messageCount: Option<nat>,
    memberCount: Option<U8>,
    permissions: Option<string>)

  /** `attach`: installs the client handle and keeps every other field. */
  function Attach(c: Channel, h: HttpMessages.HttpClient): (r: Channel)
    ensures r.http == Some(h)
    ensures r.(http := c.http) == c
  {
    c.(http := Some(h))
  }

  /** Attaching twice keeps only the second handle. */
  lemma AttachLastWins(c: Channel, h1: HttpMessages.HttpClient, h2: HttpMessages.HttpClient)
    ensures Attach(Attach(c, h1), h2) == Attach(c, h2)
  {
  }

  /** The typed view of a guild text channel. */
  datatype TextChannel = TextChannel(
    http: Option<HttpMessages.HttpClient>,
    id: string,
    guildId: string,
    position: U16,
    permissionOverwrites: seq<Overwrite>,
    name: string,
    topic: Option<string>,
    nsfw: bool,
    lastMessageId: Option<string>,
    rateLimitPerUser: Option<nat>,
    lastPinTimestamp: Option<string>,
    permissions: Option<string>)

  /** The fields `to` unwraps; a record without one of them cannot be converted. */
  predicate IsTextConvertible(c: Channel) {
    c.guildId.Some? && c.position.Some? && c.permissionOverwrites.Some? && c.name.Some? && c.nsfw.Some?
  }

  /**
   * `Channel<TextChannel>::to`: the required fields are unwrapped, the optional ones
   * and the client handle carried over unchanged, and the rest dropped.
   */
  function ToText(c: Channel): (t: TextChannel)
    requires IsTextConvertible(c)
    ensures t.http == c.http && t.id == c.id
    ensures Some(t.guildId) == c.guildId && Some(t.position) == c.position
    ensures Some(t.permissionOverwrites) == c.permissionOverwrites
    ensures Some(t.name) == c.name && Some(t.nsfw) == c.nsfw
    ensures t.topic == c.topic && t.lastMessageId == c.lastMessageId
    ensures t.rateLimitPerUser == c.rateLimitPerUser
    ensures t.lastPinTimestamp == c.lastPinTimestamp && t.permissions == c.permissions
  {
    TextChannel(c.http, c.id, c.guildId.value, c.position.value, c.permissionOverwrites.value,
                c.name.value, c.topic, c.nsfw.value, c.lastMessageId, c.rateLimitPerUser,
                c.lastPinTimestamp, c.permissions)
  }

  /** Attaching a handle before converting is attaching it to the converted channel. */
  lemma AttachThenToText(c: Channel, h: HttpMessages.HttpClient)
    requires IsTextConvertible(c)
    ensures IsTextConvertible(Attach(c, h))
    ensures ToText(Attach(c, h)) == ToText(c).(http := Some(h))
  {
  }

  /** Channels differing only in fields `to` drops convert to the same text channel. */
  lemma ToTextForgets(c: Channel, d: Channel)
    requires IsTextConvertible(c)
    requires d == c.(channelType := d.channelType, bitrate := d.bitrate, userLimit := d.userLimit,
                     icon := d.icon, ownerId := d.ownerId, applicationId := d.applicationId,
                     managed := d.managed, parentId := d.parentId, rtcRegion := d.rtcRegion,
                     videoQualityMode := d.videoQualityMode, messageCount := d.messageCount,
                     memberCount := d.memberCount)
    ensures IsTextConvertible(d) && ToText(d) == ToText(c)
  {
  }

  /** The declared flags of `ChannelType`. */
  datatype ChannelTypeFlag =
    | GuildText
    | Dm
    | GuildVoice
    | GroupDm
    | GuildCategory
    | GuildAnnouncement
    | AnnouncementThread
    | PublicThread
    | PrivateThread
    | GuildStageVoice
    | GuildDirectory
    | GuildForum
    | GuildMedia

  /** The value of each declared flag. */
  function ChannelTypeBit(f: ChannelTypeFlag): bv64 {
    match f
    case GuildText => 1 << 0
    case Dm => 1 << 1
    case GuildVoice => 1 << 2
    case GroupDm => 1 << 3
    case GuildCategory => 1 << 4
    case GuildAnnouncement => 1 << 5
    case AnnouncementThread => 1 << 10
    case PublicThread => 1 << 11
    case PrivateThread => 1 << 12
    case GuildStageVoice => 1 << 13
    case GuildDirectory => 1 << 14
    case GuildForum => 1 << 15
    case GuildMedia => 1 << 16
  }

  /** `ChannelType::all()`: the union of the declared flags. */
  const CHANNEL_TYPE_ALL: bv64 :=
    (1 << 0) | (1 << 1) | (1 << 2) | (1 << 3) | (1 << 4) | (1 << 5) | (1 << 10) | (1 << 11)
    | (1 << 12) | (1 << 13) | (1 << 14) | (1 << 15) | (1 << 16)

  /** Bits 0-5 and 10-16 are declared; 6-9 and 17 and above are not. */
  lemma ChannelTypeMask()
    ensures CHANNEL_TYPE_ALL == 0x1_FC3F
  {
  }

  /** The declared flag whose bit is `v`, if any. */
  function ChannelTypeFromBit(v: bv64): Option<ChannelTypeFlag> {
    if v == 1 << 0 then Some(GuildText) else
    if v == 1 << 1 then Some(Dm) else
    if v == 1 << 2 then Some(GuildVoice) else
    if v == 1 << 3 then Some(GroupDm) else
    if v == 1 << 4 then Some(GuildCategory) else
    if v == 1 << 5 then Some(GuildAnnouncement) else
    if v == 1 << 10 then Some(AnnouncementThread) else
    if v == 1 << 11 then Some(PublicThread) else
    if v == 1 << 12 then Some(PrivateThread) else
    if v == 1 << 13 then Some(GuildStageVoice) else
    if v == 1 << 14 then Some(GuildDirectory) else
    if v == 1 << 15 then Some(GuildForum) else
    if v == 1 << 16 then Some(GuildMedia) else
    None
  }

  /** Each declared channel type's bit identifies it. */
  lemma ChannelTypeBitInverse(a: ChannelTypeFlag)
    ensures ChannelTypeFromBit(ChannelTypeBit(a)) == Some(a)
  {
  }

  /** Each declared channel type is a single bit inside the mask. */
  lemma ChannelTypeBits(a: ChannelTypeFlag)
    ensures SingleBit(ChannelTypeBit(a))
    ensures ChannelTypeBit(a) & CHANNEL_TYPE_ALL == ChannelTypeBit(a)
  {
    ChannelTypeMask();
  }

  /** No two declared channel types share a bit. */
  lemma ChannelTypesDistinct(a: ChannelTypeFlag, b: ChannelTypeFlag)
    ensures a != b ==> ChannelTypeBit(a) & ChannelTypeBit(b) == 0
  {
    if a != b {
      ChannelTypeBitInverse(a);
      ChannelTypeBitInverse(b);
      ChannelTypeBits(a);
      ChannelTypeBits(b);
      SingleBitsDisjoint(ChannelTypeBit(a), ChannelTypeBit(b));
    }
  }

  /** Decoding a channel type drops bits 6-9 and every bit from 17 up, and keeps the rest. */
  lemma ChannelTypeDecode(v: bv64)
    ensures Decode64(v, CHANNEL_TYPE_ALL) & 0xFFFF_FFFF_FFFE_03C0 == 0
    ensures Decode64(v, CHANNEL_TYPE_ALL) & 0x1_FC3F == v & 0x1_FC3F
  {
    ChannelTypeMask();
  }

  /**
   * `Permissions::ALL`, i.e. `all()`: the union of the 49 declared flags, from
   * `CREATE_INSTANT_INVITE = 1 << 0` to `USE_EXTERNAL_APPS = 1 << 50`, in declaration order.
   */
  const PERMISSIONS_ALL: bv64 :=
    (1 << 0) | (1 << 1) | (1 << 2) | (1 << 3) | (1 << 4) | (1 << 5) | (1 << 6) | (1 << 7)
    | (1 << 8) | (1 << 9) | (1 << 10) | (1 << 11) | (1 << 12) | (1 << 13) | (1 << 14) | (1 << 15)
    | (1 << 16) | (1 << 17) | (1 << 18) | (1 << 19) | (1 << 20) | (1 << 21) | (1 << 22) | (1 << 23)
    | (1 << 24) | (1 << 25) | (1 << 26) | (1 << 27) | (1 << 28) | (1 << 29) | (1 << 30) | (1 << 31)
    | (1 << 32) | (1 << 33) | (1 << 34) | (1 << 35) | (1 << 36) | (1 << 37) | (1 << 38) | (1 << 39)
    | (1 << 40) | (1 << 41) | (1 << 42) | (1 << 43) | (1 << 44) | (1 << 45) | (1 << 46) | (1 << 49)
    | (1 << 50)

  /** `Permissions::NONE`, the empty set. */
  const PERMISSIONS_NONE: Flags64 := 0

  /** Bits 0-46, 49 and 50 are declared; 47, 48 and 51-63 are not. */
  lemma PermissionsMask()
    ensures PERMISSIONS_ALL == 0x0006_7FFF_FFFF_FFFF
  {
  }

  /** `Serialize`: the decimal string of the bits. */
  function SerializePermissions(p: Flags64): (r: string)
    ensures IsCanonical(r)
    ensures ParseU64(r) == Some(p as int)
  {
    ToDecimalCanonical(p as int);
    DecimalRoundTrip(p as int);
    ToDecimal(p as int)
  }

  /** `Permissions::from_bits_truncate`: keeps the declared bits and drops 47, 48 and 51-63. */
  function PermissionsFromBits(v: bv64): (p: Flags64)
    ensures p & 0xFFF9_8000_0000_0000 == 0
    ensures p & 0x0006_7FFF_FFFF_FFFF == v & 0x0006_7FFF_FFFF_FFFF
  {
    PermissionsMask();
    Decode64(v, PERMISSIONS_ALL)
  }

  /**
   * `Deserialize`: the string is parsed as a `u64` (a string that does not parse is
   * unwrapped, so it is excluded) and truncated to the declared bits.
   */
  function DeserializePermissions(s: string): (p: Flags64)
    requires ParseU64(s).Some?
    ensures p & 0xFFF9_8000_0000_0000 == 0
    ensures p & 0x0006_7FFF_FFFF_FFFF == (ParseU64(s).value as bv64) & 0x0006_7FFF_FFFF_FFFF
  {
    PermissionsFromBits(ParseU64(s).value as bv64)
  }

  /** A permission set of declared flags survives the string form unchanged; `ALL` and `NONE` among them. */
  lemma PermissionsRoundTrip(p: Flags64)
    requires Within64(p, PERMISSIONS_ALL)
    ensures DeserializePermissions(SerializePermissions(p)) == p
  {
    var n := p as int;
    assert ParseU64(SerializePermissions(p)) == Some(n);
    assert n as bv64 == p;
    RoundTrip64(p, PERMISSIONS_ALL);
  }

  /** `ALL` and `NONE` are among the sets that round-trip. */
  lemma AllAndNoneRoundTrip()
    ensures DeserializePermissions(SerializePermissions(PERMISSIONS_ALL)) == PERMISSIONS_ALL
    ensures DeserializePermissions(SerializePermissions(PERMISSIONS_NONE)) == PERMISSIONS_NONE
  {
    PermissionsMask();
    PermissionsRoundTrip(PERMISSIONS_ALL);
    PermissionsRoundTrip(PERMISSIONS_NONE);
  }
}
