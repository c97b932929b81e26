# omu core, modelled in Dafny

omu is a Rust client library for the Discord bot API. This project models the parts of it that carry logic:

- how guilds are assigned to shards;
- the gateway envelope `{op, d, s, t}`: its text-frame encoding, the Identify builder and the dispatch of an envelope to a typed gateway event;
- the gateway connection object: disconnect, next, send, heartbeat and authenticate;
- snowflake ids and their decimal form;
- the allowed-mentions builder and the create-message builder;
- the bitflags codecs (encode `bits()`, decode `from_bits_truncate`) of every flag type, with their masks;
- the repr discriminant tables of the message enums;
- channel attach and the typed text-channel view;
- the decimal-string wire form of `Permissions`.

One module per source file:

| module | file | models |
|---|---|---|
| `Wrappers`, `Numeric`, `JsonValue` | `wrappers.dfy`, `numeric.dfy`, `json_value.dfy` | `Option`/`Result`; unsigned integer ranges, decimal printing (`itoa`) and parsing (`str::parse`, `lexical`); the JSON value a frame carries, with object lookup |
| `Sharding` | `sharding.dfy` | `src/gateway/sharding.rs` |
| `GatewayEvent` | `gateway_event.dfy` | `src/gateway/event.rs` with the event union of `src/gateway/event_data.rs` |
| `GatewayCore` | `gateway.dfy` | `src/gateway/core.rs`: a class `Gateway` |
| `Snowflakes` | `snowflake.dfy` | `src/dataclasses/snowflake.rs` |
| `AllowedMentions` | `allowed_mentions.dfy` | `src/utils.rs`: a class `AllowedMentionsBuilder` |
| `HttpMessages` | `http_messages.dfy` | `src/http/http_messages.rs` |
| `Bitflags` | `bitflags.dfy` | `src/macros.rs`, plus the one-flag types of `src/dataclasses/attachment.rs` and `src/dataclasses/role.rs` |
| `Channels` | `channel.dfy` | `src/dataclasses/channel.rs` (its `ChannelType` is declared identically in `src/models/channel.rs`) |
| `Users` | `user_flags.dfy` | `UserFlags` of `src/models/user.rs` |
| `Messages` | `message.dfy` | `src/dataclasses/message.rs` |
| `LegacyMessages` | `legacy_message.dfy` | the bitflags `MessageType` of `src/models/message.rs`; that file's `Nounce` has the same two untagged shapes as the current one and is represented by `Messages.Nounce` |

Conventions:

- Flag sets are `bv64`/`bv8` values, namely their `bits()`. A flag type is described by its mask, the union of its declared constants.
- A websocket text frame holds JSON text. Here it is represented by the JSON value that the text denotes.
- Network outcomes are `bool` parameters: whether connecting, writing or closing succeeds.
- The server's frames are the gateway's `inbound` sequence, and the frames written are its ghost `outbound` log.
- Where the Rust code calls `unwrap()` on something that may fail, the model makes success a precondition. Otherwise every error path of the source is an `Err` result.

Three behaviours of the code that differ from what a reader of Discord's documentation might expect:

- Discord's gateway protocol has a client heartbeat with op 1 and reserves op 11 for the server's acknowledgement. `Gateway::heartbeat` sends op 11, as its doc comment says, and the model follows the code.
- `get_event_data` returns an error for a dispatch name other than `READY` and `MESSAGE_CREATE`; there is no generic dispatch event.
- `core.rs` builds envelopes with a type named `GatewayEvent` and no `t` field. The envelope type in `event.rs` is `RawGatewayEvent`, which has `t`. The model uses `RawGatewayEvent` throughout and gives `core.rs`'s envelopes `t = None`.

## Model

| member | source | states |
|---|---|---|
| Sharding.GetSharding | src/gateway/sharding.rs:17-19 | the second component is `num_shards`; the shard id is below `num_shards` and is the remainder of `guild_id >> 22` divided by it; `num_shards = 0` is excluded because `%` by zero panics |
| Sharding.SameHighBitsSameShard | src/gateway/sharding.rs:18 | ids equal after `>> 22` get the same shard |
| Sharding.LowBitsIrrelevant | src/gateway/sharding.rs:18 | changing only the low 22 bits of an id never changes its shard |
| Sharding.SingleShard | src/gateway/sharding.rs:18 | with one shard every guild is on shard 0 |
| Sharding.DocExampleAsWritten | src/gateway/sharding.rs:14-16 | the documented `get_sharding(1, 2) == (1, 2)` is false; the formula gives `(0, 2)` |
| Sharding.DocExampleCorrected | src/gateway/sharding.rs:14-19 | `1 << 22` is placed on shard 1 of 2, and every id below `1 << 22` on shard 0 |
| GatewayEvent.ToJson | src/gateway/event.rs:13-23 | an envelope is written as exactly the four members `op`, `d`, `s`, `t`, with `op` its op code |
| GatewayEvent.OptionalMember | src/gateway/event.rs:17-22 | an optional member reads as present exactly when it exists and is not `null` |
| GatewayEvent.Slot | src/gateway/event.rs:13-23 | a field is read by name from the map form and by position from the sequence form, with `null` read as absent |
| GatewayEvent.FromJson | src/gateway/event.rs:13-23 | decoding succeeds iff the value is an object (serde's map form) or an array of exactly four elements (its sequence form `[op, d, s, t]`) in which `op` is a u32 and `s` and `t`, unless absent or `null`, are a u64 and a string; the result then holds `op`, and `d`, `s`, `t` are `None` exactly when absent or `null` and the field's value otherwise |
| GatewayEvent.SequenceForm | src/gateway/event.rs:13-37 | the text frame `[11,null,null,null]` decodes to a bare op 11, a full four-element array decodes field by field, and a three-element array is rejected |
| GatewayEvent.DescribesUnique | src/gateway/event.rs:13-23 | a JSON value holds at most one envelope, so the decoded fields are determined by the members |
| GatewayEvent.ToMessage | src/gateway/event.rs:39-43 | an envelope is sent as a text frame holding a JSON object |
| GatewayEvent.FromMessage | src/gateway/event.rs:25-37 | a text frame is decoded with `from_str(..).unwrap()`, so it must hold an envelope in either serde form; the result holds the frame's `op`, `d`, `s` and `t` as `FromJson` reads them |
| GatewayEvent.EnvelopeRoundTrip | src/gateway/event.rs:25-43 | encoding an envelope into a text frame and decoding it back gives the same op, d, s and t, whenever `d` is not `Some(null)` |
| GatewayEvent.NullDataBecomesAbsent | src/gateway/event.rs:17-18 | an envelope whose `d` is `Some(null)` comes back with `d = None` |
| GatewayEvent.NewIdentify | src/gateway/event.rs:55-83 | the identify envelope has op 2, no sequence, no name, and data holding token, properties, compress, large_threshold and presence verbatim; intents default to the empty set; `shard` is present iff a shard is given, and is then `[id, total]` |
| GatewayEvent.IdentifyRoundTrip | src/gateway/event.rs:55-83 | an identify envelope survives the frame round trip, and a receiver reads back the token, the intents (empty when none were given) and the shard pair, which is present exactly when one was given |
| GatewayEvent.ReadGuildId | src/gateway/event.rs:90-93 | the guild id of a MESSAGE_CREATE is present iff `d.guild_id` is, and then is that string |
| GatewayEvent.GetEventData | src/gateway/event.rs:85-116 | each event kind comes from exactly the envelopes the match selects: Heartbeat from op 1 without data, HeartbeatAcknowledgement from op 11 without data, Hello from op 10 with data (carrying `heartbeat_interval`), Ready and MessageCreate from op 0 named `READY` / `MESSAGE_CREATE` when the payload decodes. A failed payload decode gives an error, and data with an op other than 0 and 10 gives an unknown-op error. A missing `t` on a dispatch and a non-string `guild_id` are preconditions, because they are unwrapped |
| GatewayEvent.NoDataOnlyHeartbeats | src/gateway/event.rs:109-115 | without data only op 1 and op 11 decode; any other op, 0 and 10 included, is an error |
| GatewayEvent.DataOnHeartbeatRejected | src/gateway/event.rs:86-106 | with data, op 1 and op 11 are rejected like every op other than 0 and 10 |
| GatewayEvent.UnknownDispatchRejected | src/gateway/event.rs:88-96 | a dispatch with any other name is an error; there is no generic fallback |
| GatewayCore.Deliver | src/gateway/core.rs:59-63 | a frame read from the stream is returned as `Some(frame)`, a stream error as an error |
| GatewayCore.Gateway.Open | src/gateway/core.rs:31-35 | a new gateway has the stream present, status `Establishing`, no heartbeat interval, nothing sent |
| GatewayCore.Gateway.Connect | src/gateway/core.rs:28-36 | connecting fails iff the endpoint cannot be reached; otherwise it yields a fresh gateway in that initial state |
| GatewayCore.Gateway.Disconnect | src/gateway/core.rs:39-53 | the stream is absent afterwards whether or not closing succeeded; a successful close sends one Normal (1000) close frame with reason "Disconnected"; with no stream the result is "Already disconnected"; status, heartbeat interval and inbound frames are unchanged |
| GatewayCore.Gateway.Next | src/gateway/core.rs:56-68 | when disconnected it fails and changes nothing; otherwise it yields the inbound frames in order, then `None` once they are exhausted |
| GatewayCore.Gateway.Send | src/gateway/core.rs:71-80 | when disconnected it fails and sends nothing; otherwise a successful write appends exactly the message to the outbound log |
| GatewayCore.Gateway.Heartbeat | src/gateway/core.rs:83-94 | on success exactly one frame is sent: the envelope with op 11, no data, no sequence |
| GatewayCore.Gateway.Authenticate | src/gateway/core.rs:106-125 | on success exactly one frame is sent: an identify envelope with properties linux/rust/rust, compress false, large threshold 50, no shard, no presence and the given intents; on failure nothing is sent |
| GatewayCore.DisconnectTwice | src/gateway/core.rs:39-53 | a second disconnect always fails with "Already disconnected", and status and heartbeat interval never change |
| GatewayCore.UseAfterDisconnect | src/gateway/core.rs:56-80 | after a disconnect, next and send both fail with "Already disconnected" and change nothing: the stream is gone, the pending frames, status and interval are kept, and the only frame written is the disconnect's own close frame when it succeeded |
| Snowflakes.New | src/dataclasses/snowflake.rs:12-18 | `as_u64` of `new(id)` is `id` |
| Snowflakes.AsU64 | src/dataclasses/snowflake.rs:16-18 | `as_u64` (like `AsRef<u64>`, `Deref` and `From<Snowflake> for u64` at lines 36-53) gives the id the snowflake is made of, the value its printed form parses to |
| Snowflakes.ToString | src/dataclasses/snowflake.rs:55-60 | `to_string` is the canonical decimal form of the id, which parses back to the id |
| Snowflakes.FromString | src/dataclasses/snowflake.rs:62-68 | the string must parse as a `u64` (it is unwrapped), and the result holds the parsed value |
| Snowflakes.StringRoundTrip | src/dataclasses/snowflake.rs:55-68 | parsing the printed form gives the same snowflake |
| Snowflakes.ToStringUnique | src/dataclasses/snowflake.rs:55-60 | the printed form is the only canonical decimal spelling of the id |
| Snowflakes.Serialize | src/dataclasses/snowflake.rs:88-95 | the serde form is a decimal string that deserialises to the same snowflake |
| Snowflakes.Deserialize | src/dataclasses/snowflake.rs:76-86 | the string must parse as a `u64` (it is unwrapped); the result holds the value it parses to, and re-serialising it gives the input string back exactly when that string is canonical |
| Snowflakes.MentionUser | src/dataclasses/snowflake.rs:20-22 | the mention is `<@`, the canonical decimal id and `>`, which by `MentionIsFormatted` is the one such string |
| Snowflakes.MentionRole | src/dataclasses/snowflake.rs:24-26 | the mention is `<@&`, the canonical decimal id and `>` |
| Snowflakes.MentionChannel | src/dataclasses/snowflake.rs:28-30 | the mention is `<#`, the canonical decimal id and `>` |
| Snowflakes.MentionsDistinct | src/dataclasses/snowflake.rs:20-30 | the three mention formats never coincide, and each determines the id |
| Snowflakes.MentionIsFormatted | src/dataclasses/snowflake.rs:20-30 | a string satisfying the mention contract for a prefix and an id is exactly `prefix + to_string(id) + ">"` |
| Numeric.ParseU64 | src/dataclasses/snowflake.rs:65 | the reference definition of reading a `u64`: an optional `+`, then one or more ASCII digits whose value is below 2^64; its properties are `DecimalRoundTrip` and `CanonicalIsToDecimal` |
| Numeric.ToDecimal | src/dataclasses/snowflake.rs:55-60 | the printed decimal is canonical (non-empty digits, no leading zero) and starts with `0` only for 0 |
| Numeric.ToDecimalCanonical | src/dataclasses/snowflake.rs:57-58 | decimal printing yields digits without leading zeros whose value is the number |
| Numeric.DecimalRoundTrip | src/dataclasses/snowflake.rs:55-68 | parsing the printed decimal of any `u64` gives it back |
| Numeric.CanonicalIsToDecimal | src/dataclasses/snowflake.rs:57-58 | every canonical digit string is the printed form of its value |
| Numeric.ToDecimalInjective | src/dataclasses/snowflake.rs:57-58 | distinct numbers print differently |
| AllowedMentions.Enabled | src/utils.rs:5-14 | after enabling, the kind is listed; the old list is a prefix of the new one, which is at most one longer; no other kind's count changes; the kind's count is unchanged if it was listed and 1 otherwise |
| AllowedMentions.Without | src/utils.rs:16-27 | after disabling, the kind is absent and exactly the other listed kinds remain |
| AllowedMentions.WithoutAppend | src/utils.rs:22-24 | removal distributes over concatenation, so the remaining entries keep their order |
| AllowedMentions.WithoutSingle | src/utils.rs:22-24 | a single entry is kept exactly when it is not the removed kind |
| AllowedMentions.WithoutCounts | src/utils.rs:22-24 | every other kind keeps its number of occurrences, and the removed kind has none |
| AllowedMentions.WithoutAbsent | src/utils.rs:17-25 | removing an absent kind is the identity, so the `contains` guard does not change the result |
| AllowedMentions.EnableIdempotent | src/utils.rs:5-14 | a second enable changes nothing |
| AllowedMentions.DisableIdempotent | src/utils.rs:16-27 | a second disable changes nothing |
| AllowedMentions.EnableKeepsNoDuplicates | src/utils.rs:5-14 | enable keeps a duplicate-free list duplicate-free |
| AllowedMentions.DisableKeepsNoDuplicates | src/utils.rs:16-27 | disable keeps a duplicate-free list duplicate-free |
| AllowedMentions.EnableDisableCommute | src/utils.rs:3-28 | enabling one kind and disabling another commute |
| AllowedMentions.DisableUndoesEnable | src/utils.rs:3-28 | disabling after enabling is the same as disabling alone |
| AllowedMentions.AllowedMentionsBuilder.Empty | src/utils.rs:36-44 | `parse = []`, no roles, no users |
| AllowedMentions.AllowedMentionsBuilder.FromRoles | src/utils.rs:46-54 | `parse = [Roles]`, roles as given, no users |
| AllowedMentions.AllowedMentionsBuilder.FromUsers | src/utils.rs:56-64 | `parse = [Users]`, users as given, no roles |
| AllowedMentions.AllowedMentionsBuilder.FromAllowedMention | src/utils.rs:87-93 | building a builder made from `a` gives `a` back |
| AllowedMentions.AllowedMentionsBuilder.Build | src/utils.rs:68-70 | `build` hands back the record the builder holds, so every edit of the builder is visible in the built value |
| AllowedMentions.AllowedMentionsBuilder.Enable | src/utils.rs:5-14 | `parse` becomes the enabled list; roles and users are untouched; no duplicates is preserved |
| AllowedMentions.AllowedMentionsBuilder.Disable | src/utils.rs:16-27 | `parse` loses every occurrence of the kind; roles and users are untouched; no duplicates is preserved |
| AllowedMentions.AllowedMentionsBuilder.WithUsers | src/utils.rs:76-79 | sets the user list; parse and roles are unchanged |
| AllowedMentions.AllowedMentionsBuilder.WithRoles | src/utils.rs:81-84 | sets the role list; parse and users are unchanged |
| HttpMessages.New | src/http/http_messages.rs:27-40 | all six fields are unset, and the client and channel are the given ones |
| HttpMessages.WithContent | src/http/http_messages.rs:42-45 | sets `content` and leaves every other field, the client and the channel unchanged |
| HttpMessages.WithNounce | src/http/http_messages.rs:47-50 | sets `nounce` only |
| HttpMessages.WithTts | src/http/http_messages.rs:52-55 | sets `tts` only |
| HttpMessages.WithEmbeds | src/http/http_messages.rs:57-60 | sets `embeds` only |
| HttpMessages.WithAllowedMentions | src/http/http_messages.rs:62-65 | sets `allowed_mentions` only |
| HttpMessages.WithMessageReference | src/http/http_messages.rs:67-70 | sets `message_reference` only |
| HttpMessages.Apply | src/http/http_messages.rs:42-70 | every setter changes at most the one field it names |
| HttpMessages.Stored | src/http/http_messages.rs:10-18 | a field's content is reported exactly when the field is set |
| HttpMessages.LastFor | src/http/http_messages.rs:42-70 | the last call in a chain that writes a field, if any, is a call of that chain and writes that field |
| HttpMessages.ApplyStores | src/http/http_messages.rs:42-70 | a setter stores exactly its argument |
| HttpMessages.LastWriteWins | src/http/http_messages.rs:42-70 | calling the same setter twice keeps the second value |
| HttpMessages.SettersCommute | src/http/http_messages.rs:42-70 | setters on different fields commute |
| HttpMessages.ApplyAllKeepsTarget | src/http/http_messages.rs:42-70 | no chain of setters changes the client or the channel |
| HttpMessages.ApplyAllSnoc | src/http/http_messages.rs:42-70 | applying a chain and then one more setter is applying the longer chain |
| HttpMessages.BuiltFromNew | src/http/http_messages.rs:27-70 | from a fresh builder, every field holds the argument of the last call that wrote it, and unwritten fields stay unset |
| Bitflags.Decode64 | src/macros.rs:19-27 | decoding keeps only bits of the mask, and keeps every one of them |
| Bitflags.Decode8 | src/macros.rs:49-57 | the same at 8-bit width |
| Bitflags.Encode64 | src/macros.rs:4-17 | `From<T> for u64` and `Serialize` write `bits()`, which decoding under any mask containing them reads back as the same set |
| Bitflags.Encode8 | src/macros.rs:34-47 | the same at 8-bit width |
| Bitflags.RoundTrip64 | src/macros.rs:4-27 | decode(encode(f)) == f iff f has no bit outside the mask |
| Bitflags.RoundTrip8 | src/macros.rs:34-57 | the same at 8-bit width |
| Bitflags.DecodeIdempotent64 | src/macros.rs:24-25 | decoding the bits of a decoded value changes nothing |
| Bitflags.DecodeIdempotent8 | src/macros.rs:54-55 | the same at 8-bit width |
| Bitflags.NarrowAgrees | src/macros.rs:32-58 | the 8-bit codec is the 64-bit codec on values that fit in 8 bits |
| Bitflags.SingleFlagTypes | src/dataclasses/attachment.rs:30-36 | decoding attachment flags keeps bit 2 only, and decoding role flags keeps bit 0 only |
| Channels.OverwriteTypeFromCode | src/dataclasses/channel.rs:169-174 | a discriminant decodes iff it is 0 or 1 |
| Channels.OverwriteTypeCode | src/dataclasses/channel.rs:169-174 | each overwrite type is written as the discriminant that reads back as it (role 0, member 1) |
| Channels.OverwriteTypeCodes | src/dataclasses/channel.rs:169-174 | the variant/discriminant table is a bijection onto {0, 1} |
| Channels.VideoQualityModeFromCode | src/dataclasses/channel.rs:255-261 | a discriminant decodes iff it is 1 or 2 |
| Channels.VideoQualityModeCode | src/dataclasses/channel.rs:255-261 | each video quality mode is written as the discriminant that reads back as it (auto 1, full 2) |
| Channels.VideoQualityModeCodes | src/dataclasses/channel.rs:255-261 | the variant/discriminant table is a bijection onto {1, 2} |
| Channels.Attach | src/dataclasses/channel.rs:65-68 | `attach(h)` sets the client to `h` and changes no other field |
| Channels.AttachLastWins | src/dataclasses/channel.rs:65-68 | attaching twice keeps the second client |
| Channels.ToText | src/dataclasses/channel.rs:90-105 | guild id, position, overwrites, name and nsfw must be present (they are unwrapped) and are carried over; client, id, topic, last message id, rate limit, last pin timestamp and permissions are copied unchanged |
| Channels.AttachThenToText | src/dataclasses/channel.rs:65-105 | attaching before converting is attaching to the converted channel |
| Channels.ToTextForgets | src/dataclasses/channel.rs:90-105 | fields the conversion drops do not affect its result |
| Channels.ChannelTypeMask | src/dataclasses/channel.rs:136-155 | the union of the declared channel types is 0x1FC3F |
| Channels.ChannelTypeBits | src/dataclasses/channel.rs:139-151 | each channel type is a single bit inside the mask |
| Channels.ChannelTypesDistinct | src/dataclasses/channel.rs:139-151 | no two channel types share a bit |
| Channels.ChannelTypeDecode | src/dataclasses/channel.rs:136-155 | decoding drops bits 6-9 and all bits from 17 up, and keeps the rest |
| Channels.PermissionsMask | src/dataclasses/channel.rs:176-234 | `Permissions::ALL` is 0x0006_7FFF_FFFF_FFFF (bits 0-46, 49, 50) |
| Channels.SerializePermissions | src/dataclasses/channel.rs:236-243 | the wire form is the canonical decimal string of the bits |
| Channels.PermissionsFromBits | src/dataclasses/channel.rs:251 | truncation drops bits 47, 48 and 51-63 and keeps all declared bits |
| Channels.DeserializePermissions | src/dataclasses/channel.rs:245-253 | the string must parse as a `u64` (unwrapped); the result is the parsed value without bits 47, 48 and 51-63 |
| Channels.PermissionsRoundTrip | src/dataclasses/channel.rs:231-253 | every permission set within `ALL` survives serialise then deserialise |
| Channels.AllAndNoneRoundTrip | src/dataclasses/channel.rs:231-234 | `ALL` and `NONE` survive serialise then deserialise |
| Users.UserFlagsMask | src/models/user.rs:65-90 | the union of the declared user flags is bits {0-3, 6-10, 14, 16-19, 22} |
| Users.DeclaredFlagBits | src/models/user.rs:67-89 | each declared user flag is a single bit inside the mask |
| Users.DeclaredFlagsDistinct | src/models/user.rs:67-89 | no two declared user flags share a bit |
| Users.Deserialize | src/models/user.rs:107-115 | decoding keeps exactly the declared bits of the wire value |
| Users.UserFlagsRoundTrip | src/models/user.rs:92-115 | a set of declared flags survives `Into<u64>` / serialise then deserialise |
| Messages.MessageFlagsMask | src/dataclasses/message.rs:58-76 | `MessageFlags` declares bits 0-8 and 12-14; decoding drops bits 9-11 and from 15 up |
| Messages.MessageTypeCode | src/dataclasses/message.rs:85-125 | every `MessageType` is written as one of the listed discriminants |
| Messages.MessageTypeCodes | src/dataclasses/message.rs:85-125 | every `MessageType` variant's code is a listed code and decodes back to the variant |
| Messages.MessageTypeRange | src/dataclasses/message.rs:85-125 | a code decodes iff it is listed, and then to the variant with that code; 13, 30, 33-35, 40-43 and 45 have none |
| Messages.MessageActivityTypeCode | src/dataclasses/message.rs:262-269 | each activity type is written as the discriminant that reads back as it |
| Messages.MessageActivityTypeFromCode | src/dataclasses/message.rs:262-269 | a discriminant decodes iff it is 1, 2, 3 or 5 |
| Messages.MessageActivityTypeCodes | src/dataclasses/message.rs:262-269 | `MessageActivityType` codes are exactly {1, 2, 3, 5}, both directions |
| Messages.MessageReferenceTypeCode | src/dataclasses/message.rs:303-310 | each reference type is written as the discriminant that reads back as it |
| Messages.MessageReferenceTypeFromCode | src/dataclasses/message.rs:303-310 | a discriminant decodes iff it is 0 or 1 |
| Messages.MessageReferenceTypeCodes | src/dataclasses/message.rs:303-310 | `MessageReferenceType` codes are Default = 0 and Forward = 1, both directions |
| Messages.NounceToJson | src/dataclasses/message.rs:78-83 | the untagged nounce is written as a bare string or a bare number |
| Messages.NounceFromJson | src/dataclasses/message.rs:78-83 | a string reads as `Str`, a `u64` number as `Integer`, anything else is rejected |
| Messages.NounceRoundTrip | src/dataclasses/message.rs:78-83 | every nounce reads back as itself |
| Messages.FromWireName | src/dataclasses/message.rs:280-288 | a decoded name is the wire name of the decoded kind |
| Messages.WireName | src/dataclasses/message.rs:280-288 | every kind is written as one of "roles", "users", "everyone" |
| Messages.WireNameRoundTrip | src/dataclasses/message.rs:280-288 | the wire names are exactly "roles", "users", "everyone", each reading back as its kind |
| Messages.IdsToJson | src/dataclasses/message.rs:271-278 | an id list is written as an array of the same length whose i-th element is the canonical decimal string of the i-th id |
| Messages.AllowedMentionToJson | src/dataclasses/message.rs:271-278 | `parse` is always written, as the array of wire names; `roles` and `users` are written iff present, as id arrays; no other member is written |
| Messages.KindsToJson | src/dataclasses/message.rs:273 | a `parse` list is written as an array of the same length whose i-th element is a name reading back as the i-th kind |
| Messages.IdsFromJson | src/dataclasses/message.rs:274-277 | an id array is read iff every element is a string holding a `u64`, giving one id per element with that value |
| Messages.KindFromJson | src/dataclasses/message.rs:280-288 | a kind is read from its bare wire name or from serde's map form `{"<name>": null}`, and from nothing else |
| Messages.KindsFromJson | src/dataclasses/message.rs:273 | a `parse` array is read iff every element reads as a kind, giving one kind per element |
| Messages.OptionalIdsFromJson | src/dataclasses/message.rs:274-277 | an absent or `null` id-list field reads as `None`; a present one must be a valid id array |
| Messages.Member | src/dataclasses/message.rs:271-278 | a field is read by name from the map form and by position from the sequence form |
| Messages.AllowedMentionFromJson | src/dataclasses/message.rs:271-278 | a record is read iff the value is an object or a three-element array `[parse, roles, users]` whose `parse` field is a valid kind list and whose `roles` and `users` fields are absent, `null` or valid id lists; each field of the result is what its reader gives |
| Messages.AllowedMentionForms | src/dataclasses/message.rs:271-288 | `{"roles": null}` reads as `Roles`, `[["roles"], null, null]` as a record parsing roles only, and a two-element array is rejected |
| Messages.IdsRoundTrip | src/dataclasses/message.rs:274-277 | reading a written id list gives the same ids in order |
| Messages.KindsRoundTrip | src/dataclasses/message.rs:273 | reading a written `parse` list gives the same kinds in order |
| Messages.AllowedMentionRoundTrip | src/dataclasses/message.rs:271-288 | deserialising a serialised allowed-mention record gives it back |
| LegacyMessages.MessageTypeMask | src/models/message.rs:45-87 | the union of the declared codes is the low six bits, 0x3F |
| LegacyMessages.Value | src/models/message.rs:45-87 | every declared constant lies in the low six bits |
| LegacyMessages.DefaultIsEmpty | src/models/message.rs:47-48 | `DEFAULT = 0` is the empty set and encodes as 0 |
| LegacyMessages.DeclaredCodesRoundTrip | src/models/message.rs:45-87 | every declared code survives encode then decode |
| LegacyMessages.DecodeKeepsLowSixBits | src/models/message.rs:45-87 | any value below 64 decodes to itself; a value of 64 or more loses its high bits |
| LegacyMessages.UndeclaredThirteen | src/models/message.rs:60-61 | 13 has no constant, yet decodes unchanged |

## Left out

- The websocket transport and TLS (`connect_async`, `split`, `close`) are I/O. The model has the server's frames as a sequence, the frames written as a log, and success or failure of each network action as a parameter. The network test in `core.rs` is not modelled.
- JSON text printing and parsing (serde_json, ijson) are not modelled. A text frame carries the JSON value it denotes, so `d` is an opaque value with member lookup.
- The `Message::Frame` branch of `From<Message> for RawGatewayEvent` (`event.rs:29`) parses a raw frame's text form. That form is not modelled, so `FromMessage` accepts text frames only. Binary, ping, pong and close frames panic in the source, and the model excludes them by a precondition.
- Decoding `ReadyData` and `Message` bodies (`ijson::from_value`) is passed to `GetEventData` as a decoder function. The DTO bodies themselves carry no behaviour: `Message`, `Embed*`, `Reaction`, `Emoji`, `Role`, `RoleTags`, `Attachment`, `User`, `PartialGuild`, `ReadyData`.
- The HTTP client (`src/http/client.rs`), including `PrepareCreateMessageBuilder::send`, is network I/O behind a mutex, and `HttpError.retry_after` is a float. `HttpClient` is reduced to its base URL.
- `Channel::message` and `TextChannel::message` pass the channel's `String` id where a `&Snowflake` is expected, so they do not type-check as shown. They are not modelled.
- `AllowedMentionType` derives only `Debug`, `Serialize` and `Deserialize`, yet the `switch!` macro of `src/utils.rs` compares its values with `contains` and `!=`, which need `PartialEq`, so the builder does not compile as shown. The model compares kinds structurally, as a derived `PartialEq` would.
- `Channel<VoiceChannel>::to` and `Channel<Thread>::to` return unit structs; there is nothing to model. The phantom type parameter of `Channel` is dropped.
- `Channel.recipients` (a list of `User` DTOs) is dropped. `usize` counts are unbounded naturals.
- Float fields (`Attachment.duration_secs`) are not modelled.
- `AllowedMention.roles` and `users` are declared as `Vec<String>`, while the builder stores `Vec<Snowflake>` in them. The model uses snowflakes, whose wire form is the same decimal string.
- Messages.AllowedMentionFromJson: an id string that does not hold a `u64` is rejected, where the declared `Vec<String>` would accept it, because the model stores ids as snowflakes.
- The `Intents` type is not part of this model; intents are an opaque `u64` whose empty set is 0.
- The procedural macros (`omu-macros`), the cache wrapper (`src/cache/in_memory.rs`), the module wiring files, and the stale call sites in `src/client/core.rs`, `src/main.rs` and `examples/simple.rs` are not modelled.
- `Gateway.status` and `heartbeat_interval` are set when connecting and never changed by any method. There is no heartbeat scheduling, sequence tracking or resume, because the source has none.
- Users.IntoU64: `Into<u64>` of a flag set is its bits; in the model a flag set is its bits, so this member carries no contract of its own.
- Channels.PermissionsMask: the 49 permission flags are described through their union only. Per-flag facts (each flag a single bit, no two sharing one) are not stated, because the 49-way bit-level case split is too costly for the solver.
- Messages.MessageTypeFromCode: the inverse property is stated in `MessageTypeRange` rather than on the function, because the 38-way match with that postcondition is too costly for the solver.
- Decimal parsing accepts an optional leading `+` followed by one or more ASCII digits whose value is below 2^64, as `str::parse::<u64>` and `lexical::parse` do. Other `lexical` number-format options are not modelled.

## Findings

| source | as written | input that shows it | evidently intended | confidence | as-written member | corrected member |
|---|---|---|---|---|---|---|
| src/gateway/sharding.rs:14-16 | the doc example asserts `get_sharding(1, 2)` returns shard 1 | `guild_id = 1, num_shards = 2`: `1 >> 22 = 0`, so the shard is 0 | an example id with bit 22 set, e.g. `1 << 22`, which is on shard 1 of 2 | high (not executed) | Sharding.DocExampleAsWritten | Sharding.DocExampleCorrected |
