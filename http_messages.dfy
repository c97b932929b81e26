/**
 * The create-message request body and the by-value builder that fills it in.
 * Every setter takes the builder, overwrites one optional field with `Some(..)`
 * and hands the builder back; sending the request is HTTP and is not modelled.
 */
module HttpMessages {
  import opened Wrappers
  import opened Messages
  import Snowflakes

  /** The HTTP client handle, reduced to its API base URL; the connection pool is not modelled. */
  datatype HttpClient = HttpClient(base: string)

  /** The JSON body of a create-message request: six optional fields. */
  datatype CreateMessage = CreateMessage(
    content: Option<string>,
    nounce: Option<Nounce>,
    tts: Option<bool>,
    embeds: Option<seq<Embed>>,
    allowedMentions: Option<AllowedMention>,
    messageReference: Option<MessageReference>)

  /** The request under construction, with the client and target channel it will be sent with. */
  datatype PrepareCreateMessageBuilder = PrepareCreateMessageBuilder(
    cm: CreateMessage,
    http: HttpClient,
    channelId: Snowflakes.Snowflake)

  /** The six fields of the request body, by name. */
  datatype Field = Content | NounceField | Tts | Embeds | AllowedMentions | MessageReferenceField

  /** Whether field `f` of the body is set. */
  predicate IsSet(cm: CreateMessage, f: Field) {
    match f
    case Content => cm.content.Some?
    case NounceField => cm.nounce.Some?
    case Tts => cm.tts.Some?
    case Embeds => cm.embeds.Some?
    case AllowedMentions => cm.allowedMentions.Some?
    case MessageReferenceField => cm.messageReference.Some?
  }

  /** `a` and `b` hold the same value in field `f`. */
  predicate SameField(a: CreateMessage, b: CreateMessage, f: Field) {
    match f
    case Content => a.content == b.content
    case NounceField => a.nounce == b.nounce
    case Tts => a.tts == b.tts
    case Embeds => a.embeds == b.embeds
    case AllowedMentions => a.allowedMentions == b.allowedMentions
    case MessageReferenceField => a.messageReference == b.messageReference
  }

  /** The two builders target the same client and channel and differ at most in field `f`. */
  predicate OnlyChanged(a: PrepareCreateMessageBuilder, b: PrepareCreateMessageBuilder, f: Field) {
    && a.http == b.http
    && a.channelId == b.channelId
    && forall g: Field :: g != f ==> SameField(a.cm, b.cm, g)
  }

  /** A fresh builder: nothing set yet. */
  function New(http: HttpClient, channelId: Snowflakes.Snowflake): (r: PrepareCreateMessageBuilder)
    ensures r.http == http && r.channelId == channelId
    ensures forall f: Field :: !IsSet(r.cm, f)
  {
    PrepareCreateMessageBuilder(CreateMessage(None, None, None, None, None, None), http, channelId)
  }

  function WithContent(b: PrepareCreateMessageBuilder, content: string): (r: PrepareCreateMessageBuilder)
    ensures r.cm.content == Some(content)
    ensures OnlyChanged(b, r, Content)
  {
    b.(cm := b.cm.(content := Some(content)))
  }

  function WithNounce(b: PrepareCreateMessageBuilder, nounce: Nounce): (r: PrepareCreateMessageBuilder)
    ensures r.cm.nounce == Some(nounce)
    ensures OnlyChanged(b, r, NounceField)
  {
    b.(cm := b.cm.(nounce := Some(nounce)))
  }

  function WithTts(b: PrepareCreateMessageBuilder, tts: bool): (r: PrepareCreateMessageBuilder)
    ensures r.cm.tts == Some(tts)
    ensures OnlyChanged(b, r, Tts)
  {
    b.(cm := b.cm.(tts := Some(tts)))
  }

  function WithEmbeds(b: PrepareCreateMessageBuilder, embeds: seq<Embed>): (r: PrepareCreateMessageBuilder)
    ensures r.cm.embeds == Some(embeds)
    ensures OnlyChanged(b, r, Embeds)
  {
    b.(cm := b.cm.(embeds := Some(embeds)))
  }

  function WithAllowedMentions(b: PrepareCreateMessageBuilder, allowedMentions: AllowedMention): (r: PrepareCreateMessageBuilder)
    ensures r.cm.allowedMentions == Some(allowedMentions)
    ensures OnlyChanged(b, r, AllowedMentions)
  {
    b.(cm := b.cm.(allowedMentions := Some(allowedMentions)))
  }

  function WithMessageReference(b: PrepareCreateMessageBuilder, messageReference: MessageReference): (r: PrepareCreateMessageBuilder)
    ensures r.cm.messageReference == Some(messageReference)
    ensures OnlyChanged(b, r, MessageReferenceField)
  {
    b.(cm := b.cm.(messageReference := Some(messageReference)))
  }

  /** One setter call together with its argument. */
  datatype Setting =
    | SetContent(content: string)
    | SetNounce(nounce: Nounce)
    | SetTts(tts: bool)
    | SetEmbeds(embeds: seq<Embed>)
    | SetAllowedMentions(allowedMentions: AllowedMention)
    | SetMessageReference(messageReference: MessageReference)

  /** The field a setter call writes. */
  function Target(s: Setting): Field {
    match s
    case SetContent(_) => Content
    case SetNounce(_) => NounceField
    case SetTts(_) => Tts
    case SetEmbeds(_) => Embeds
    case SetAllowedMentions(_) => AllowedMentions
    case SetMessageReference(_) => MessageReferenceField
  }

  /** Calls the setter `s` names. */
  function Apply(b: PrepareCreateMessageBuilder, s: Setting): (r: PrepareCreateMessageBuilder)
    ensures OnlyChanged(b, r, Target(s))
  {
    match s
    case SetContent(c) => WithContent(b, c)
    case SetNounce(n) => WithNounce(b, n)
    case SetTts(t) => WithTts(b, t)
    case SetEmbeds(e) => WithEmbeds(b, e)
    case SetAllowedMentions(a) => WithAllowedMentions(b, a)
    case SetMessageReference(m) => WithMessageReference(b, m)
  }

  /** A chain of setter calls, applied left to right. */
  function ApplyAll(b: PrepareCreateMessageBuilder, ss: seq<Setting>): PrepareCreateMessageBuilder
    decreases |ss|
  {
    if ss == [] then b else ApplyAll(Apply(b, ss[0]), ss[1..])
  }

  /** The value field `f` holds, as the setter call that would put it there (`None` when unset). */
  function Stored(cm: CreateMessage, f: Field): (r: Option<Setting>)
    ensures r.Some? <==> IsSet(cm, f)
    ensures r.Some? ==> Target(r.value) == f
  {
    match f
    case Content => if cm.content.Some? then Some(SetContent(cm.content.value)) else None
    case NounceField => if cm.nounce.Some? then Some(SetNounce(cm.nounce.value)) else None
    case Tts => if cm.tts.Some? then Some(SetTts(cm.tts.value)) else None
    case Embeds => if cm.embeds.Some? then Some(SetEmbeds(cm.embeds.value)) else None
    case AllowedMentions =>
      if cm.allowedMentions.Some? then Some(SetAllowedMentions(cm.allowedMentions.value)) else None
    case MessageReferenceField =>
      if cm.messageReference.Some? then Some(SetMessageReference(cm.messageReference.value)) else None
  }

  /** The last call in `ss` that writes field `f`, if any. */
  function LastFor(ss: seq<Setting>, f: Field): (r: Option<Setting>)
    ensures r.Some? ==> r.value in ss && Target(r.value) == f
    ensures r.None? ==> forall s :: s in ss ==> Target(s) != f
    decreases |ss|
  {
    if ss == [] then None
    else if Target(ss[|ss| - 1]) == f then Some(ss[|ss| - 1])
    else LastFor(ss[..|ss| - 1], f)
  }

  /** Setting the field a call writes stores exactly that call's argument. */
  lemma ApplyStores(b: PrepareCreateMessageBuilder, s: Setting)
    ensures Stored(Apply(b, s).cm, Target(s)) == Some(s)
  {
  }

  /** Calling the same setter twice keeps the second value. */
  lemma LastWriteWins(b: PrepareCreateMessageBuilder, s1: Setting, s2: Setting)
    requires Target(s1) == Target(s2)
    ensures Apply(Apply(b, s1), s2) == Apply(b, s2)
  {
  }

  /** Setters on different fields commute. */
  lemma SettersCommute(b: PrepareCreateMessageBuilder, s1: Setting, s2: Setting)
    requires Target(s1) != Target(s2)
    ensures Apply(Apply(b, s1), s2) == Apply(Apply(b, s2), s1)
  {
  }

  /** A chain of calls never changes the client or the channel. */
  lemma {:induction false} ApplyAllKeepsTarget(b: PrepareCreateMessageBuilder, ss: seq<Setting>)
    ensures ApplyAll(b, ss).http == b.http && ApplyAll(b, ss).channelId == b.channelId
    decreases |ss|
  {
    if ss != [] {
      ApplyAllKeepsTarget(Apply(b, ss[0]), ss[1..]);
    }
  }

  /** Applying one more call after a chain is applying the longer chain. */
  lemma {:induction false} ApplyAllSnoc(b: PrepareCreateMessageBuilder, ss: seq<Setting>, s: Setting)
    ensures ApplyAll(b, ss + [s]) == Apply(ApplyAll(b, ss), s)
    decreases |ss|
  {
    if ss == [] {
      assert [s][1..] == [];
    } else {
      assert (ss + [s])[1..] == ss[1..] + [s];
      ApplyAllSnoc(Apply(b, ss[0]), ss[1..], s);
    }
  }

  /**
   * Starting from a fresh builder, every field ends up holding the argument of
   * the last call that wrote it, and fields no call wrote stay unset.
   */
  lemma {:induction false} BuiltFromNew(http: HttpClient, channelId: Snowflakes.Snowflake, ss: seq<Setting>, f: Field)
    ensures Stored(ApplyAll(New(http, channelId), ss).cm, f) == LastFor(ss, f)
    decreases |ss|
  {
    if ss != [] {
      var init, s := ss[..|ss| - 1], ss[|ss| - 1];
      assert ss == init + [s];
      ApplyAllSnoc(New(http, channelId), init, s);
      BuiltFromNew(http, channelId, init, f);
      var before := ApplyAll(New(http, channelId), init);
      if Target(s) == f {
        ApplyStores(before, s);
      } else {
        assert SameField(before.cm, Apply(before, s).cm, f);
      }
    }
  }
}
