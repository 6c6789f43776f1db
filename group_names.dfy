/** The channel-layer group names of the three chat scopes, and the facts that
    make them safe routing keys: a direct pair is named the same from either
    side, distinct scopes never share a name, and a name determines its
    scope. `ChatViews.GetChatGroupName` and `ChatConsumer.GetChatGroupName`
    both build their names from these. */
module GroupNames {
  import opened Models

  /** The decimal digit character for `d`. */
  function DigitChar(d: nat): (c: char)
    requires d < 10
    ensures '0' <= c <= '9'
  {
    ('0' as int + d) as char
  }

  predicate AllDigits(s: string)
  {
    forall i :: 0 <= i < |s| ==> '0' <= s[i] <= '9'
  }

  /** `str(n)` for a non-negative Python int: its decimal digits, most
      significant first, with no leading zeros. */
  function NatToString(n: nat): (s: string)
    ensures AllDigits(s)
    ensures |s| >= 1 && (|s| == 1 <==> n < 10)
    decreases n
  {
    if n < 10 then [DigitChar(n)] else NatToString(n / 10) + [DigitChar(n % 10)]
  }

  /** Distinct numbers print differently. */
  lemma {:induction false} NatToStringInjective(a: nat, b: nat)
    requires NatToString(a) == NatToString(b)
    ensures a == b
    decreases a
  {
    if a >= 10 {
      var s := NatToString(a);
      assert s[..|s| - 1] == NatToString(a / 10);
      assert s[..|s| - 1] == NatToString(b / 10);
      NatToStringInjective(a / 10, b / 10);
      assert DigitChar(a % 10) == s[|s| - 1] == DigitChar(b % 10);
    } else {
      assert DigitChar(a) == NatToString(a)[0] == DigitChar(b);
    }
  }

  /** Python's `sorted([a, b])`: the pair in ascending order. */
  function Sorted2(a: nat, b: nat): (p: (nat, nat))
    ensures p.0 <= p.1
    ensures (p.0 == a && p.1 == b) || (p.0 == b && p.1 == a)
  {
    if a <= b then (a, b) else (b, a)
  }

  const DIRECT_PREFIX: string := "chat.one-on-one."
  const GUILD_PREFIX: string := "chat.guild."
  const GLOBAL_GROUP: string := "chat.global"

  /** `f'chat.one-on-one.{user_ids[0]}-{user_ids[1]}'` with
      `user_ids = sorted([a, b])`. */
  function DirectGroup(a: UserId, b: UserId): (r: string)
    ensures var lo := if a <= b then a else b;
            var hi := if a <= b then b else a;
            r == DIRECT_PREFIX + NatToString(lo) + "-" + NatToString(hi)
  {
    var p := Sorted2(a, b);
    DIRECT_PREFIX + NatToString(p.0) + "-" + NatToString(p.1)
  }

  /** `f'chat.guild.{guild_id}'`, given the text the f-string prints for the
      id (its digits, or `None` when the id is missing). */
  function GuildGroup(idText: string): (r: string)
    ensures |r| == |GUILD_PREFIX| + |idText|
    ensures r[..|GUILD_PREFIX|] == GUILD_PREFIX && r[|GUILD_PREFIX|..] == idText
  {
    GUILD_PREFIX + idText
  }

  /** Both participants of a direct chat resolve to the same group. */
  lemma DirectGroupSymmetric(a: UserId, b: UserId)
    ensures DirectGroup(a, b) == DirectGroup(b, a)
  {
  }

  /** Two digit strings joined by `-` can be split back apart. */
  lemma SplitAtDash(x1: string, y1: string, x2: string, y2: string)
    requires AllDigits(x1) && AllDigits(x2)
    requires x1 + "-" + y1 == x2 + "-" + y2
    ensures x1 == x2 && y1 == y2
  {
    var s := x1 + "-" + y1;
    assert s[|x1|] == '-';
    assert (x2 + "-" + y2)[|x2|] == '-';
    assert forall i :: 0 <= i < |x1| ==> s[i] == x1[i] != '-';
    assert forall i :: 0 <= i < |x2| ==> s[i] == x2[i] != '-';
    assert |x1| == |x2|;
    assert x1 == s[..|x1|] == x2;
    assert y1 == s[|x1| + 1..] == y2;
  }

  /** Equal direct group names come from the same sorted pair of ids. */
  lemma DirectGroupDeterminesPair(a: UserId, b: UserId, c: UserId, d: UserId)
    requires DirectGroup(a, b) == DirectGroup(c, d)
    ensures Sorted2(a, b) == Sorted2(c, d)
  {
    var p, q := Sorted2(a, b), Sorted2(c, d);
    var s1 := NatToString(p.0) + "-" + NatToString(p.1);
    var s2 := NatToString(q.0) + "-" + NatToString(q.1);
    assert DirectGroup(a, b) == DIRECT_PREFIX + s1;
    assert DirectGroup(c, d) == DIRECT_PREFIX + s2;
    assert s1 == DirectGroup(a, b)[|DIRECT_PREFIX|..] == s2;
    SplitAtDash(NatToString(p.0), NatToString(p.1), NatToString(q.0), NatToString(q.1));
    NatToStringInjective(p.0, q.0);
    NatToStringInjective(p.1, q.1);
  }

  /** A direct group name identifies its unordered pair of users exactly:
      two requests share a direct group if and only if they name the same
      two participants. */
  lemma DirectGroupInjective(a: UserId, b: UserId, c: UserId, d: UserId)
    ensures DirectGroup(a, b) == DirectGroup(c, d) <==> (a == c && b == d) || (a == d && b == c)
  {
    if DirectGroup(a, b) == DirectGroup(c, d) {
      DirectGroupDeterminesPair(a, b, c, d);
    }
    if a == d && b == c {
      DirectGroupSymmetric(c, d);
    }
  }

  /** A guild group name identifies its guild. */
  lemma GuildGroupInjective(g: GuildId, h: GuildId)
    ensures GuildGroup(NatToString(g)) == GuildGroup(NatToString(h)) <==> g == h
  {
    if GuildGroup(NatToString(g)) == GuildGroup(NatToString(h)) {
      assert NatToString(g) == GuildGroup(NatToString(g))[|GUILD_PREFIX|..];
      assert NatToString(h) == GuildGroup(NatToString(h))[|GUILD_PREFIX|..];
      NatToStringInjective(g, h);
    }
  }

  /** Names of different kinds never coincide: the one-on-one, guild and
      global prefixes differ in their sixth or seventh character. */
  lemma GroupKindsDisjoint(a: UserId, b: UserId, idText: string)
    ensures DirectGroup(a, b) != GuildGroup(idText)
    ensures DirectGroup(a, b) != GLOBAL_GROUP
    ensures GuildGroup(idText) != GLOBAL_GROUP
  {
    assert DirectGroup(a, b)[5] == 'o';
    assert GuildGroup(idText)[5] == 'g' && GuildGroup(idText)[6] == 'u';
    assert GLOBAL_GROUP[5] == 'g' && GLOBAL_GROUP[6] == 'l';
  }
}
