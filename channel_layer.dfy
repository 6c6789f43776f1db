/** The channel layer as the chat consumer uses it: a registry from group
    name to the set of channel names subscribed to it. `group_add` inserts
    into a set, `group_discard` removes from it (a channel that is absent is
    no error), and a group whose set becomes empty is dropped, as Channels'
    in-memory layer does. Message transport is not part of this model:
    `group_send` is represented by the snapshot of subscribers it reads. */
module ChannelLayer {

  type ChannelName = string

  type Groups = map<string, set<ChannelName>>

  /** Only groups with at least one subscriber are kept. */
  ghost predicate NoEmptyGroups(m: Groups)
  {
    forall g :: g in m ==> m[g] != {}
  }

  /** The channels subscribed to `g`; none for an unknown group. */
  function Subscribers(m: Groups, g: string): set<ChannelName>
  {
    if g in m then m[g] else {}
  }

  /** The registry after `group_add(g, c)`. */
  function Added(m: Groups, g: string, c: ChannelName): (r: Groups)
    ensures Subscribers(r, g) == Subscribers(m, g) + {c}
    ensures forall h :: h != g ==> Subscribers(r, h) == Subscribers(m, h)
    ensures NoEmptyGroups(m) ==> NoEmptyGroups(r)
  {
    m[g := Subscribers(m, g) + {c}]
  }

  /** The registry after `group_discard(g, c)`. */
  function Discarded(m: Groups, g: string, c: ChannelName): (r: Groups)
    ensures Subscribers(r, g) == Subscribers(m, g) - {c}
    ensures forall h :: h != g ==> Subscribers(r, h) == Subscribers(m, h)
    ensures NoEmptyGroups(m) ==> NoEmptyGroups(r)
  {
    if g !in m then m
    else if m[g] - {c} == {} then m - {g}
    else m[g := m[g] - {c}]
  }

  /** Two registries with the same subscribers everywhere are the same. */
  lemma SubscribersDetermine(m: Groups, n: Groups)
    requires NoEmptyGroups(m) && NoEmptyGroups(n)
    requires forall g :: Subscribers(m, g) == Subscribers(n, g)
    ensures m == n
  {
    forall g | g in m ensures g in n && m[g] == n[g] {
      assert Subscribers(m, g) == Subscribers(n, g);
    }
    forall g | g in n ensures g in m {
      assert Subscribers(m, g) == Subscribers(n, g);
    }
  }

  /** Subscribing the same channel twice is the same as subscribing it once. */
  lemma AddIdempotent(m: Groups, g: string, c: ChannelName)
    ensures Added(Added(m, g, c), g, c) == Added(m, g, c)
  {
  }

  /** Discarding a channel that is not subscribed changes nothing. */
  lemma DiscardAbsent(m: Groups, g: string, c: ChannelName)
    requires NoEmptyGroups(m) && c !in Subscribers(m, g)
    ensures Discarded(m, g, c) == m
  {
    forall h ensures Subscribers(Discarded(m, g, c), h) == Subscribers(m, h) {
    }
    SubscribersDetermine(Discarded(m, g, c), m);
  }

  /** Adding a channel that was not subscribed and then discarding it
      restores the registry exactly. */
  lemma AddThenDiscard(m: Groups, g: string, c: ChannelName)
    requires NoEmptyGroups(m) && c !in Subscribers(m, g)
    ensures Discarded(Added(m, g, c), g, c) == m
  {
    var r := Discarded(Added(m, g, c), g, c);
    forall h ensures Subscribers(r, h) == Subscribers(m, h) {
    }
    SubscribersDetermine(r, m);
  }

  /** Two adds and one discard leave the channel unsubscribed: duplicate
      subscriptions are not counted. */
  lemma AddTwiceDiscardOnce(m: Groups, g: string, c: ChannelName)
    ensures c !in Subscribers(Discarded(Added(Added(m, g, c), g, c), g, c), g)
  {
  }

  class Layer {
    var groups: Groups

    ghost predicate Valid()
      reads this
    {
      NoEmptyGroups(groups)
    }

    constructor ()
      ensures Valid() && groups == map[]
    {
      groups := map[];
    }

    /** `group_add(group, channel)`. */
    method GroupAdd(group: string, channel: ChannelName)
      requires Valid()
      modifies this
      ensures Valid()
      ensures groups == Added(old(groups), group, channel)
    {
      var current := if group in groups then groups[group] else {};
      groups := groups[group := current + {channel}];
    }

    /** `group_discard(group, channel)`. */
    method GroupDiscard(group: string, channel: ChannelName)
      requires Valid()
      modifies this
      ensures Valid()
      ensures groups == Discarded(old(groups), group, channel)
    {
      if group in groups {
        var rest := groups[group] - {channel};
        if rest == {} {
          groups := groups - {group};
        } else {
          groups := groups[group := rest];
        }
      }
    }

    /** The channels a `group_send(group, ...)` issued now is delivered to. */
    function Snapshot(group: string): (s: set<ChannelName>)
      reads this
      ensures forall c :: c in s <==> group in groups && c in groups[group]
    {
      Subscribers(groups, group)
    }
  }
}
