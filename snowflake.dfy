/** `Snowflake`: a 64-bit id whose text and wire form is its decimal representation. */
module Snowflakes {
  import opened Wrappers
  import opened Numeric

  datatype Snowflake = Snowflake(id: U64)

  /** `Snowflake::new` */
  function New(id: U64): (s: Snowflake)
    ensures AsU64(s) == id
  {
    Snowflake(id)
  }

  /** `as_u64`, and equally `u64::from`, `Deref` and `AsRef<u64>`: the stored id. */
  function AsU64(s: Snowflake): (r: U64)
    ensures Snowflake(r) == s
    ensures ParseU64(ToString(s)) == Some(r)
  {
    s.id
  }

  /** `ToString` (and `From<Snowflake> for String`): the canonical decimal form of the id. */
  function ToString(s: Snowflake): (r: string)
    ensures IsCanonical(r)
    ensures ParseU64(r) == Some(s.id)
  {
    DecimalRoundTrip(s.id);
    ToDecimalCanonical(s.id);
    ToDecimal(s.id)
  }

  /** `From<String>`: a string that does not parse as a `u64` panics. */
  function FromString(text: string): (s: Snowflake)
    requires ParseU64(text).Some?
    ensures ParseU64(text) == Some(s.id)
  {
    Snowflake(ParseU64(text).value)
  }

  /** Parsing the printed form gives the same snowflake back. */
  lemma StringRoundTrip(s: Snowflake)
    ensures FromString(ToString(s)) == s
  {
  }

  /** Printing is injective and its output is the only canonical spelling of the id. */
  lemma ToStringUnique(s: Snowflake, text: string)
    requires IsCanonical(text) && ParseU64(text) == Some(s.id)
    ensures text == ToString(s)
  {
    CanonicalIsToDecimal(text);
  }

  /** The serde form is the decimal string: serialise is `ToString`, deserialise is `FromString`. */
  function Serialize(s: Snowflake): (r: string)
    ensures ParseU64(r).Some? && FromString(r) == s
  {
    ToString(s)
  }

  function Deserialize(text: string): (s: Snowflake)
    requires ParseU64(text).Some?
    ensures ParseU64(text) == Some(s.id)
    ensures Serialize(s) == text <==> IsCanonical(text)
  {
    var s := FromString(text);
    if IsCanonical(text) then ToStringUnique(s, text); s else s
  }

  /**
   * A mention is a prefix, the id in canonical decimal and '>'; the id can be
   * read back from it.
   */
  predicate IsMention(r: string, prefix: string, id: U64) {
    |r| > |prefix| + 1
    && r[..|prefix|] == prefix
    && r[|r| - 1] == '>'
    && IsCanonical(r[|prefix|..|r| - 1])
    && ParseU64(r[|prefix|..|r| - 1]) == Some(id)
  }

  /** Only one string is a mention of `id` with a given prefix: `format!("{prefix}{id}>")`. */
  lemma MentionIsFormatted(r: string, prefix: string, id: U64)
    requires IsMention(r, prefix, id)
    ensures r == prefix + ToString(Snowflake(id)) + ">"
  {
    var middle := r[|prefix|..|r| - 1];
    ToStringUnique(Snowflake(id), middle);
    assert r == r[..|prefix|] + middle + [r[|r| - 1]];
  }

  /** `mention_user`: `<@id>` */
  function MentionUser(s: Snowflake): (r: string)
    ensures IsMention(r, "<@", s.id)
  {
    var r := "<@" + ToString(s) + ">";
    assert r[2..|r| - 1] == ToString(s);
    r
  }

  /** `mention_role`: `<@&id>` */
  function MentionRole(s: Snowflake): (r: string)
    ensures IsMention(r, "<@&", s.id)
  {
    var r := "<@&" + ToString(s) + ">";
    assert r[3..|r| - 1] == ToString(s);
    r
  }

  /** `mention_channel`: `<#id>` */
  function MentionChannel(s: Snowflake): (r: string)
    ensures IsMention(r, "<#", s.id)
  {
    var r := "<#" + ToString(s) + ">";
    assert r[2..|r| - 1] == ToString(s);
    r
  }

  /** The three mention forms never coincide, and each determines the id. */
  lemma MentionsDistinct(a: Snowflake, b: Snowflake)
    ensures MentionUser(a) != MentionRole(b)
    ensures MentionUser(a) != MentionChannel(b)
    ensures MentionRole(a) != MentionChannel(b)
    ensures MentionUser(a) == MentionUser(b) ==> a == b
    ensures MentionRole(a) == MentionRole(b) ==> a == b
    ensures MentionChannel(a) == MentionChannel(b) ==> a == b
  {
    var ua, rb := MentionUser(a), MentionRole(b);
    assert ua[2] == ToString(a)[0];
    assert IsDigit(ua[2]);
    assert rb[2] == '&';
    assert MentionUser(a)[1] == '@' && MentionChannel(b)[1] == '#';
    assert MentionRole(a)[1] == '@';
  }
}
