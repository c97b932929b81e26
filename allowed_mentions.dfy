/**
 * The allowed-mentions builder. Its `enable_*` / `disable_*` pairs (one pair per
 * mention kind) change the `parse` list in place; the constructors, `with_users`,
 * `with_roles`, `build` and the conversion from an `AllowedMention` are record builds.
 */
module AllowedMentions {
  import opened Wrappers
  import opened Messages
  import Snowflakes

  /** No mention kind occurs twice. */
  predicate NoDuplicates(p: seq<AllowedMentionType>) {
    forall i, j :: 0 <= i < j < |p| ==> p[i] != p[j]
  }

  /**
   * The list after enabling `t`: `t` is appended when it is absent, and the
   * list is left as it was when it is present.
   */
  function Enabled(p: seq<AllowedMentionType>, t: AllowedMentionType): (r: seq<AllowedMentionType>)
    ensures t in r
    ensures |p| <= |r| <= |p| + 1 && r[..|p|] == p
    ensures forall u :: u != t ==> multiset(r)[u] == multiset(p)[u]
    ensures multiset(r)[t] == if t in p then multiset(p)[t] else 1
  {
    if t in p then p else p + [t]
  }

  /** The list after disabling `t`: every occurrence of `t` is removed. */
  function Without(p: seq<AllowedMentionType>, t: AllowedMentionType): (r: seq<AllowedMentionType>)
    ensures t !in r
    ensures forall u :: u in r <==> u in p && u != t
    ensures |r| <= |p|
    decreases |p|
  {
    if p == [] then []
    else if p[0] == t then Without(p[1..], t)
    else [p[0]] + Without(p[1..], t)
  }

  /** Removal works entry by entry: it distributes over concatenation, so the survivors keep their order. */
  lemma {:induction false} WithoutAppend(p: seq<AllowedMentionType>, q: seq<AllowedMentionType>, t: AllowedMentionType)
    ensures Without(p + q, t) == Without(p, t) + Without(q, t)
    decreases |p|
  {
    if p != [] {
      assert (p + q)[0] == p[0] && (p + q)[1..] == p[1..] + q;
      WithoutAppend(p[1..], q, t);
      if p[0] != t {
        assert [p[0]] + (Without(p[1..], t) + Without(q, t)) == ([p[0]] + Without(p[1..], t)) + Without(q, t);
      }
    } else {
      assert p + q == q;
    }
  }

  /** A single entry survives exactly when it is not `t`. */
  lemma WithoutSingle(u: AllowedMentionType, t: AllowedMentionType)
    ensures Without([u], t) == if u == t then [] else [u]
  {
    assert [u][1..] == [];
  }

  /** Every other kind keeps its number of occurrences; `t` has none left. */
  lemma {:induction false} WithoutCounts(p: seq<AllowedMentionType>, t: AllowedMentionType, u: AllowedMentionType)
    ensures multiset(Without(p, t))[u] == if u == t then 0 else multiset(p)[u]
    decreases |p|
  {
    if p != [] {
      WithoutCounts(p[1..], t, u);
      assert p == [p[0]] + p[1..];
    }
  }

  /** Removing a kind that is absent leaves the list as it was. */
  lemma {:induction false} WithoutAbsent(p: seq<AllowedMentionType>, t: AllowedMentionType)
    requires t !in p
    ensures Without(p, t) == p
    decreases |p|
  {
    if p != [] {
      WithoutAbsent(p[1..], t);
      assert p == [p[0]] + p[1..];
    }
  }

  /** Enabling twice is enabling once. */
  lemma EnableIdempotent(p: seq<AllowedMentionType>, t: AllowedMentionType)
    ensures Enabled(Enabled(p, t), t) == Enabled(p, t)
  {
  }

  /** Disabling twice is disabling once. */
  lemma DisableIdempotent(p: seq<AllowedMentionType>, t: AllowedMentionType)
    ensures Without(Without(p, t), t) == Without(p, t)
  {
    WithoutAbsent(Without(p, t), t);
  }

  /** Enabling keeps a list free of duplicates. */
  lemma EnableKeepsNoDuplicates(p: seq<AllowedMentionType>, t: AllowedMentionType)
    requires NoDuplicates(p)
    ensures NoDuplicates(Enabled(p, t))
  {
  }

  /** Disabling keeps a list free of duplicates. */
  lemma {:induction false} DisableKeepsNoDuplicates(p: seq<AllowedMentionType>, t: AllowedMentionType)
    requires NoDuplicates(p)
    ensures NoDuplicates(Without(p, t))
    decreases |p|
  {
    if p != [] {
      assert NoDuplicates(p[1..]) by {
        forall i, j | 0 <= i < j < |p[1..]|
          ensures p[1..][i] != p[1..][j]
        {
          assert p[1..][i] == p[i + 1] && p[1..][j] == p[j + 1];
        }
      }
      DisableKeepsNoDuplicates(p[1..], t);
      if p[0] != t {
        assert p[0] !in p[1..];
        var r := [p[0]] + Without(p[1..], t);
        forall i, j | 0 <= i < j < |r|
          ensures r[i] != r[j]
        {
          if i == 0 {
            assert r[j] in Without(p[1..], t);
          }
        }
      }
    }
  }

  /** Enabling one kind and disabling a different one commute. */
  lemma EnableDisableCommute(p: seq<AllowedMentionType>, a: AllowedMentionType, b: AllowedMentionType)
    requires a != b
    ensures Without(Enabled(p, a), b) == Enabled(Without(p, b), a)
  {
    if a !in p {
      WithoutAppend(p, [a], b);
      WithoutSingle(a, b);
    }
  }

  /** Disabling after enabling is disabling alone. */
  lemma DisableUndoesEnable(p: seq<AllowedMentionType>, t: AllowedMentionType)
    ensures Without(Enabled(p, t), t) == Without(p, t)
  {
    if t !in p {
      WithoutAppend(p, [t], t);
      WithoutSingle(t, t);
    }
  }

  /** The builder: it owns one `AllowedMention` and edits it. */
  class AllowedMentionsBuilder {
    var allowedMentions: AllowedMention

    /** `empty()`: nothing parsed, no explicit lists. */
    constructor Empty()
      ensures allowedMentions == AllowedMention([], None, None)
      ensures NoDuplicates(allowedMentions.parse)
    {
      allowedMentions := AllowedMention([], None, None);
    }

    /** `roles(rs)`: parse roles, with the given explicit role list. */
    constructor FromRoles(roles: seq<Snowflakes.Snowflake>)
      ensures allowedMentions == AllowedMention([Roles], Some(roles), None)
      ensures NoDuplicates(allowedMentions.parse)
    {
      allowedMentions := AllowedMention([Roles], Some(roles), None);
    }

    /** `users(us)`: parse users, with the given explicit user list. */
    constructor FromUsers(users: seq<Snowflakes.Snowflake>)
      ensures allowedMentions == AllowedMention([Users], None, Some(users))
      ensures NoDuplicates(allowedMentions.parse)
    {
      allowedMentions := AllowedMention([Users], None, Some(users));
    }

    /** `From<AllowedMention>`: wraps the value as it is, so building gives it back. */
    constructor FromAllowedMention(value: AllowedMention)
      ensures Build() == value
    {
      allowedMentions := value;
    }

    /** `build()`: the value built so far. */
    function Build(): (r: AllowedMention)
      reads this
      ensures r == allowedMentions
    {
      allowedMentions
    }

    /**
     * `enable_everyone` / `enable_roles` / `enable_users`: appends the kind unless
     * it is already listed; the explicit lists are untouched.
     */
    method Enable(t: AllowedMentionType)
      modifies this
      ensures allowedMentions == old(allowedMentions).(parse := Enabled(old(allowedMentions.parse), t))
      ensures NoDuplicates(old(allowedMentions.parse)) ==> NoDuplicates(allowedMentions.parse)
    {
      if t !in allowedMentions.parse {
        allowedMentions := allowedMentions.(parse := allowedMentions.parse + [t]);
      }
      if NoDuplicates(old(allowedMentions.parse)) {
        EnableKeepsNoDuplicates(old(allowedMentions.parse), t);
      }
    }

    /**
     * `disable_everyone` / `disable_roles` / `disable_users`: when the kind is
     * listed, removes every occurrence of it; the explicit lists are untouched.
     */
    method Disable(t: AllowedMentionType)
      modifies this
      ensures allowedMentions == old(allowedMentions).(parse := Without(old(allowedMentions.parse), t))
      ensures NoDuplicates(old(allowedMentions.parse)) ==> NoDuplicates(allowedMentions.parse)
    {
      if t in allowedMentions.parse {
        allowedMentions := allowedMentions.(parse := Without(allowedMentions.parse, t));
      } else {
        WithoutAbsent(allowedMentions.parse, t);
      }
      if NoDuplicates(old(allowedMentions.parse)) {
        DisableKeepsNoDuplicates(old(allowedMentions.parse), t);
      }
    }

    /** `with_users`: sets the explicit user list; `parse` and the role list are kept. */
    method WithUsers(users: seq<Snowflakes.Snowflake>)
      modifies this
      ensures allowedMentions == old(allowedMentions).(users := Some(users))
    {
      allowedMentions := allowedMentions.(users := Some(users));
    }

    /** `with_roles`: sets the explicit role list; `parse` and the user list are kept. */
    method WithRoles(roles: seq<Snowflakes.Snowflake>)
      modifies this
      ensures allowedMentions == old(allowedMentions).(roles := Some(roles))
    {
      allowedMentions := allowedMentions.(roles := Some(roles));
    }
  }
}
